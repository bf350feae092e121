/** The single-shard mutators: stock_new_item, restock_item, price_change and
    remove_item each open the connection of the shard that owns the store and
    touch its Vendor and Customer_Portal tables at one (item, store) key. */
module ItemWrites {
  import opened Tables

  /** Only the owning shard's Vendor and Customer_Portal tables may change. */
  ghost predicate ItemFrame(db: Db, db': Db, store: StoreCode)
    requires |db.shards| > 0
  {
    && OthersUnchanged(db, db', Home(db, store))
    && db'.central == db.central
    && HomeShard(db', store).stores == HomeShard(db, store).stores
  }

  /** UPDATE Vendor SET quantity WHERE item_code AND store_code. */
  function SetQuantity(t: map<ItemKey, VendorRow>, k: ItemKey, quantity: int): map<ItemKey, VendorRow>
  {
    if k in t then t[k := t[k].(quantity := quantity)] else t
  }

  /** UPDATE Vendor SET price WHERE item_code AND store_code. */
  function SetVendorPrice(t: map<ItemKey, VendorRow>, k: ItemKey, price: Cents): map<ItemKey, VendorRow>
  {
    if k in t then t[k := t[k].(price := price)] else t
  }

  /** UPDATE Customer_Portal SET in_stock WHERE item_code AND store_code. */
  function SetInStock(t: map<ItemKey, PortalRow>, k: ItemKey, inStock: bool): map<ItemKey, PortalRow>
  {
    if k in t then t[k := t[k].(inStock := inStock)] else t
  }

  /** UPDATE Customer_Portal SET price WHERE item_code AND store_code. */
  function SetPortalPrice(t: map<ItemKey, PortalRow>, k: ItemKey, price: Cents): map<ItemKey, PortalRow>
  {
    if k in t then t[k := t[k].(price := price)] else t
  }

  /** stock_new_item: INSERT into Vendor, then INSERT into Customer_Portal with
      in_stock chosen by the quantity, then one commit. A failure of either
      INSERT (a duplicate key or a failing statement) reaches no commit, and
      the uncommitted Vendor row is rolled back when the connection closes. */
  function StockNewItem(db: Db, item: ItemCode, store: StoreCode, name: string, quantity: int, price: Cents, env: Env): (r: Step)
    requires |db.shards| > 0
    ensures ItemFrame(db, r.db, store)
    ensures r.outcome == NotConnected <==> !env.shardUp
    ensures r.outcome != PartiallyApplied
    ensures r.outcome != Completed ==> r.db == db
    ensures var s, k := HomeShard(db, store), ItemKey(item, store);
            r.outcome == Completed <==>
              env.shardUp && env.firstOk && env.secondOk && k !in s.vendor && k !in s.portal
    ensures var s, s', k := HomeShard(db, store), HomeShard(r.db, store), ItemKey(item, store);
            r.outcome == Completed ==>
              && RowInserted(s.vendor, s'.vendor, k, VendorRow(name, quantity, price))
              && RowInserted(s.portal, s'.portal, k, PortalRow(name, price, quantity > 0))
  {
    var s, k := HomeShard(db, store), ItemKey(item, store);
    if !env.shardUp then Step(db, NotConnected)
    else if k in s.vendor || !env.firstOk then Step(db, Failed)
    else
      var shown := if quantity > 0 then PortalRow(name, price, true) else PortalRow(name, price, false);
      if k in s.portal || !env.secondOk then Step(db, Failed)
      else
        var s' := s.(vendor := s.vendor[k := VendorRow(name, quantity, price)], portal := s.portal[k := shown]);
        Step(Put(db, Home(db, store), s'), Completed)
  }

  /** restock_item: UPDATE Vendor's quantity and commit, then UPDATE
      Customer_Portal's in_stock to `quantity > 0` and commit. */
  function RestockItem(db: Db, item: ItemCode, store: StoreCode, quantity: int, env: Env): (r: Step)
    requires |db.shards| > 0
    ensures ItemFrame(db, r.db, store)
    ensures r.outcome == NotConnected <==> !env.shardUp
    ensures r.outcome == Failed <==> env.shardUp && !env.firstOk
    ensures r.outcome == PartiallyApplied <==> env.shardUp && env.firstOk && !env.secondOk
    ensures r.outcome in {NotConnected, Failed} ==> r.db == db
    ensures var s, s', k := HomeShard(db, store), HomeShard(r.db, store), ItemKey(item, store);
            r.outcome in {Completed, PartiallyApplied} ==>
              && s'.vendor.Keys == s.vendor.Keys && OthersKept(s.vendor, s'.vendor, k)
              && (k in s.vendor ==> s'.vendor[k] == s.vendor[k].(quantity := quantity))
    ensures var s, s', k := HomeShard(db, store), HomeShard(r.db, store), ItemKey(item, store);
            r.outcome == Completed ==>
              && s'.portal.Keys == s.portal.Keys && OthersKept(s.portal, s'.portal, k)
              && (k in s.portal ==> s'.portal[k] == s.portal[k].(inStock := quantity > 0))
    ensures r.outcome == PartiallyApplied ==> HomeShard(r.db, store).portal == HomeShard(db, store).portal
  {
    var i, s, k := Home(db, store), HomeShard(db, store), ItemKey(item, store);
    if !env.shardUp then Step(db, NotConnected)
    else if !env.firstOk then Step(db, Failed)
    else
      var committed := s.(vendor := SetQuantity(s.vendor, k, quantity));
      if !env.secondOk then Step(Put(db, i, committed), PartiallyApplied)
      else Step(Put(db, i, committed.(portal := SetInStock(s.portal, k, quantity > 0))), Completed)
  }

  /** price_change: UPDATE Vendor's price and commit, then UPDATE
      Customer_Portal's price and commit. */
  function PriceChange(db: Db, item: ItemCode, store: StoreCode, price: Cents, env: Env): (r: Step)
    requires |db.shards| > 0
    ensures ItemFrame(db, r.db, store)
    ensures r.outcome == NotConnected <==> !env.shardUp
    ensures r.outcome == Failed <==> env.shardUp && !env.firstOk
    ensures r.outcome == PartiallyApplied <==> env.shardUp && env.firstOk && !env.secondOk
    ensures r.outcome in {NotConnected, Failed} ==> r.db == db
    ensures var s, s', k := HomeShard(db, store), HomeShard(r.db, store), ItemKey(item, store);
            r.outcome in {Completed, PartiallyApplied} ==>
              && s'.vendor.Keys == s.vendor.Keys && OthersKept(s.vendor, s'.vendor, k)
              && (k in s.vendor ==> s'.vendor[k] == s.vendor[k].(price := price))
    ensures var s, s', k := HomeShard(db, store), HomeShard(r.db, store), ItemKey(item, store);
            r.outcome == Completed ==>
              && s'.portal.Keys == s.portal.Keys && OthersKept(s.portal, s'.portal, k)
              && (k in s.portal ==> s'.portal[k] == s.portal[k].(price := price))
    ensures r.outcome == PartiallyApplied ==> HomeShard(r.db, store).portal == HomeShard(db, store).portal
  {
    var i, s, k := Home(db, store), HomeShard(db, store), ItemKey(item, store);
    if !env.shardUp then Step(db, NotConnected)
    else if !env.firstOk then Step(db, Failed)
    else
      var committed := s.(vendor := SetVendorPrice(s.vendor, k, price));
      if !env.secondOk then Step(Put(db, i, committed), PartiallyApplied)
      else Step(Put(db, i, committed.(portal := SetPortalPrice(s.portal, k, price))), Completed)
  }

  /** remove_item: DELETE from Customer_Portal and commit, then DELETE from
      Vendor and commit. */
  function RemoveItem(db: Db, item: ItemCode, store: StoreCode, env: Env): (r: Step)
    requires |db.shards| > 0
    ensures ItemFrame(db, r.db, store)
    ensures r.outcome == NotConnected <==> !env.shardUp
    ensures r.outcome == Failed <==> env.shardUp && !env.firstOk
    ensures r.outcome == PartiallyApplied <==> env.shardUp && env.firstOk && !env.secondOk
    ensures r.outcome in {NotConnected, Failed} ==> r.db == db
    ensures var s, s', k := HomeShard(db, store), HomeShard(r.db, store), ItemKey(item, store);
            r.outcome in {Completed, PartiallyApplied} ==> RowDeleted(s.portal, s'.portal, k)
    ensures var s, s', k := HomeShard(db, store), HomeShard(r.db, store), ItemKey(item, store);
            r.outcome == Completed ==> RowDeleted(s.vendor, s'.vendor, k)
    ensures r.outcome == PartiallyApplied ==> HomeShard(r.db, store).vendor == HomeShard(db, store).vendor
  {
    var i, s, k := Home(db, store), HomeShard(db, store), ItemKey(item, store);
    if !env.shardUp then Step(db, NotConnected)
    else if !env.firstOk then Step(db, Failed)
    else
      var committed := s.(portal := s.portal - {k});
      if !env.secondOk then Step(Put(db, i, committed), PartiallyApplied)
      else Step(Put(db, i, committed.(vendor := s.vendor - {k})), Completed)
  }
}

/** What the item mutators do to the invariants: every outcome but a partial
    one keeps Customer_Portal the derived view of Vendor (in particular
    in_stock == (quantity > 0)); a partial one can break it. */
module ItemWriteLemmas {
  import opened Tables
  import opened ItemWrites

  /** A change confined to the owning shard's item tables that adds only keys
      of this store and leaves that shard derived keeps the database valid. */
  lemma KeepsValid(db: Db, db': Db, store: StoreCode)
    requires Valid(db) && ItemFrame(db, db', store)
    requires forall k :: k in HomeShard(db', store).vendor ==> k in HomeShard(db, store).vendor || k.store == store
    requires forall k :: k in HomeShard(db', store).portal ==> k in HomeShard(db, store).portal || k.store == store
    requires Derived(HomeShard(db', store))
    ensures Valid(db')
  {
    var n, h := |db.shards|, Home(db, store);
    forall c
      ensures SameRow(HomeStores(db', c), db'.central, c)
    {
      assert SameRow(HomeStores(db, c), db.central, c);
      assert Home(db', c) == Home(db, c);
      if Home(db, c) != h {
        assert db'.shards[Home(db, c)] == db.shards[Home(db, c)];
      }
    }
    forall i, c | 0 <= i < n && c in db'.shards[i].stores
      ensures Home(db', c) == i
    {
      assert Home(db', c) == Home(db, c);
      if i != h {
        assert db'.shards[i] == db.shards[i];
      }
    }
    forall i, k | 0 <= i < n && k in db'.shards[i].vendor
      ensures Home(db', k.store) == i
    {
      assert Home(db', k.store) == Home(db, k.store);
      if i != h {
        assert db'.shards[i] == db.shards[i];
      }
    }
    forall i, k | 0 <= i < n && k in db'.shards[i].portal
      ensures Home(db', k.store) == i
    {
      assert Home(db', k.store) == Home(db, k.store);
      if i != h {
        assert db'.shards[i] == db.shards[i];
      }
    }
    forall i | 0 <= i < n
      ensures Derived(db'.shards[i])
    {
      if i != h {
        assert db'.shards[i] == db.shards[i];
      }
    }
  }

  lemma StockNewItemKeepsValid(db: Db, item: ItemCode, store: StoreCode, name: string, quantity: int, price: Cents, env: Env)
    requires Valid(db)
    ensures Valid(StockNewItem(db, item, store, name, quantity, price, env).db)
  {
    var r := StockNewItem(db, item, store, name, quantity, price, env);
    if r.outcome == Completed {
      var s, s', k := HomeShard(db, store), HomeShard(r.db, store), ItemKey(item, store);
      assert Derived(s);
      assert s'.vendor == s.vendor[k := VendorRow(name, quantity, price)];
      assert s'.portal == s.portal[k := PortalRow(name, price, quantity > 0)];
      KeepsValid(db, r.db, store);
    }
  }

  lemma RestockItemKeepsValid(db: Db, item: ItemCode, store: StoreCode, quantity: int, env: Env)
    requires Valid(db)
    ensures var r := RestockItem(db, item, store, quantity, env);
            r.outcome != PartiallyApplied ==> Valid(r.db)
  {
    var r := RestockItem(db, item, store, quantity, env);
    if r.outcome == Completed {
      var s, k := HomeShard(db, store), ItemKey(item, store);
      assert Derived(s);
      assert HomeShard(r.db, store) == s.(vendor := SetQuantity(s.vendor, k, quantity), portal := SetInStock(s.portal, k, quantity > 0));
      KeepsValid(db, r.db, store);
    }
  }

  lemma PriceChangeKeepsValid(db: Db, item: ItemCode, store: StoreCode, price: Cents, env: Env)
    requires Valid(db)
    ensures var r := PriceChange(db, item, store, price, env);
            r.outcome != PartiallyApplied ==> Valid(r.db)
  {
    var r := PriceChange(db, item, store, price, env);
    if r.outcome == Completed {
      var s, k := HomeShard(db, store), ItemKey(item, store);
      assert Derived(s);
      assert HomeShard(r.db, store) == s.(vendor := SetVendorPrice(s.vendor, k, price), portal := SetPortalPrice(s.portal, k, price));
      KeepsValid(db, r.db, store);
    }
  }

  lemma RemoveItemKeepsValid(db: Db, item: ItemCode, store: StoreCode, env: Env)
    requires Valid(db)
    ensures var r := RemoveItem(db, item, store, env);
            r.outcome != PartiallyApplied ==> Valid(r.db)
  {
    var r := RemoveItem(db, item, store, env);
    if r.outcome == Completed {
      var s, k := HomeShard(db, store), ItemKey(item, store);
      assert Derived(s);
      assert HomeShard(r.db, store) == s.(vendor := s.vendor - {k}, portal := s.portal - {k});
      KeepsValid(db, r.db, store);
    }
  }

  /** A partial restock that changes whether the item is in stock leaves the
      portal showing the old availability. */
  lemma RestockItemPartialStale(db: Db, item: ItemCode, store: StoreCode, quantity: int, env: Env)
    requires Valid(db)
    requires ItemKey(item, store) in HomeShard(db, store).vendor
    requires (HomeShard(db, store).vendor[ItemKey(item, store)].quantity > 0) != (quantity > 0)
    requires RestockItem(db, item, store, quantity, env).outcome == PartiallyApplied
    ensures var s', k := HomeShard(RestockItem(db, item, store, quantity, env).db, store), ItemKey(item, store);
            s'.vendor[k].quantity == quantity && s'.portal[k].inStock != (quantity > 0)
            && !AllDerived(RestockItem(db, item, store, quantity, env).db)
  {
    var r := RestockItem(db, item, store, quantity, env);
    var h, k := Home(db, store), ItemKey(item, store);
    assert Derived(db.shards[h]);
    assert k in r.db.shards[h].portal;
    assert !Mirrors(r.db.shards[h].vendor[k], r.db.shards[h].portal[k]);
  }

  /** A partial price change leaves Vendor and Customer_Portal at different prices. */
  lemma PriceChangePartialStale(db: Db, item: ItemCode, store: StoreCode, price: Cents, env: Env)
    requires Valid(db)
    requires ItemKey(item, store) in HomeShard(db, store).vendor
    requires HomeShard(db, store).vendor[ItemKey(item, store)].price != price
    requires PriceChange(db, item, store, price, env).outcome == PartiallyApplied
    ensures var s', k := HomeShard(PriceChange(db, item, store, price, env).db, store), ItemKey(item, store);
            s'.vendor[k].price == price && s'.portal[k].price != price
            && !AllDerived(PriceChange(db, item, store, price, env).db)
  {
    var r := PriceChange(db, item, store, price, env);
    var h, k := Home(db, store), ItemKey(item, store);
    assert Derived(db.shards[h]);
    assert k in r.db.shards[h].portal;
    assert !Mirrors(r.db.shards[h].vendor[k], r.db.shards[h].portal[k]);
  }

  /** A partial removal leaves the Vendor row with no Customer_Portal row: the
      item is still in inventory but invisible to customers. */
  lemma RemoveItemPartialOrphans(db: Db, item: ItemCode, store: StoreCode, env: Env)
    requires Valid(db)
    requires ItemKey(item, store) in HomeShard(db, store).vendor
    requires RemoveItem(db, item, store, env).outcome == PartiallyApplied
    ensures var s', k := HomeShard(RemoveItem(db, item, store, env).db, store), ItemKey(item, store);
            k in s'.vendor && k !in s'.portal && !AllDerived(RemoveItem(db, item, store, env).db)
  {
    var r := RemoveItem(db, item, store, env);
    var h, k := Home(db, store), ItemKey(item, store);
    assert k in r.db.shards[h].vendor && k !in r.db.shards[h].portal;
    assert !Derived(r.db.shards[h]);
  }

  /** Stocking five units and reading back: in stock. Restocking to zero: out of stock. */
  lemma StockThenRestockToZero(db: Db, item: ItemCode, store: StoreCode, name: string, price: Cents, env: Env)
    requires |db.shards| > 0
    requires StockNewItem(db, item, store, name, 5, price, env).outcome == Completed
    requires RestockItem(StockNewItem(db, item, store, name, 5, price, env).db, item, store, 0, env).outcome == Completed
    ensures var k, d1 := ItemKey(item, store), StockNewItem(db, item, store, name, 5, price, env).db;
            var d2 := RestockItem(d1, item, store, 0, env).db;
            && HomeShard(d1, store).vendor[k].quantity == 5 && HomeShard(d1, store).portal[k].inStock
            && HomeShard(d2, store).vendor[k].quantity == 0 && !HomeShard(d2, store).portal[k].inStock
  {
    var d1 := StockNewItem(db, item, store, name, 5, price, env).db;
    assert |d1.shards| == |db.shards|;
    assert Home(d1, store) == Home(db, store);
  }
}
