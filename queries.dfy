/** The read-only lookups: view_items on the owning shard's Vendor table and
    get_stores on the central Stores table. Results are sets: the SQL gives
    the rows in no promised order. */
module Queries {
  import opened Tables

  /** The columns view_items selects: item_code, item_name, quantity, price. */
  datatype ItemView = ItemView(item: ItemCode, name: string, quantity: int, price: Cents)

  function View(k: ItemKey, row: VendorRow): ItemView
  {
    ItemView(k.item, row.name, row.quantity, row.price)
  }

  /** A filter argument counts as entered when Python finds it truthy: present
      and not the empty string. */
  predicate Entered(filter: Option<string>)
  {
    filter.Some? && filter.value != ""
  }

  /** In SQL a filter compares by equality; an absent one (NULL) matches nothing. */
  predicate FilterMatches(filter: Option<string>, value: string)
  {
    filter.Some? && filter.value == value
  }

  /** The WHERE clause beyond `store_code = %s`: nothing when neither filter is
      entered, otherwise item_code = %s OR item_name = %s. */
  predicate Keeps(k: ItemKey, row: VendorRow, itemCode: Option<ItemCode>, itemName: Option<string>)
  {
    if !Entered(itemCode) && !Entered(itemName) then true
    else FilterMatches(itemCode, k.item) || FilterMatches(itemName, row.name)
  }

  /** The rows of `store` in one Vendor table that the query selects, projected. */
  function Selected(vendor: map<ItemKey, VendorRow>, store: StoreCode, itemCode: Option<ItemCode>, itemName: Option<string>): set<ItemView>
  {
    set k | k in vendor && k.store == store && Keeps(k, vendor[k], itemCode, itemName) :: View(k, vendor[k])
  }

  /** view_items: None when the shard connection cannot be opened (the source
      then falls off the end of the function), the empty list when the query
      fails, and otherwise the selected rows of the owning shard. */
  function ViewItems(db: Db, store: StoreCode, itemCode: Option<ItemCode>, itemName: Option<string>, shardUp: bool, queryOk: bool): (r: Option<set<ItemView>>)
    requires |db.shards| > 0
    ensures r.None? <==> !shardUp
    ensures r.Some? && !queryOk ==> r.value == {}
    ensures forall v :: r.Some? && v in r.value ==>
              && ItemKey(v.item, store) in HomeShard(db, store).vendor
              && View(ItemKey(v.item, store), HomeShard(db, store).vendor[ItemKey(v.item, store)]) == v
              && Keeps(ItemKey(v.item, store), HomeShard(db, store).vendor[ItemKey(v.item, store)], itemCode, itemName)
  {
    if !shardUp then None
    else if !queryOk then Some({})
    else Some(Selected(HomeShard(db, store).vendor, store, itemCode, itemName))
  }

  /** Each row of the store is listed exactly when the filter keeps it; the
      projection keeps the item code, so no two rows collapse into one. */
  lemma ListedIff(vendor: map<ItemKey, VendorRow>, store: StoreCode, itemCode: Option<ItemCode>, itemName: Option<string>, k: ItemKey)
    requires k in vendor && k.store == store
    ensures View(k, vendor[k]) in Selected(vendor, store, itemCode, itemName) <==> Keeps(k, vendor[k], itemCode, itemName)
  {
    if View(k, vendor[k]) in Selected(vendor, store, itemCode, itemName) {
      var k' :| k' in vendor && k'.store == store && Keeps(k', vendor[k'], itemCode, itemName)
                && View(k', vendor[k']) == View(k, vendor[k]);
      assert k' == k;
    }
  }

  /** With neither filter entered, every row of the store is listed. */
  lemma UnfilteredListsAll(db: Db, store: StoreCode, itemCode: Option<ItemCode>, itemName: Option<string>, k: ItemKey)
    requires |db.shards| > 0
    requires !Entered(itemCode) && !Entered(itemName)
    requires k in HomeShard(db, store).vendor && k.store == store
    ensures View(k, HomeShard(db, store).vendor[k]) in ViewItems(db, store, itemCode, itemName, true, true).value
  {
    ListedIff(HomeShard(db, store).vendor, store, itemCode, itemName, k);
  }

  /** With a filter entered, a row of the store is listed exactly when its code
      equals the code filter OR its name equals the name filter. */
  lemma FilteredIsDisjunction(db: Db, store: StoreCode, itemCode: Option<ItemCode>, itemName: Option<string>, k: ItemKey)
    requires |db.shards| > 0
    requires Entered(itemCode) || Entered(itemName)
    requires k in HomeShard(db, store).vendor && k.store == store
    ensures var row := HomeShard(db, store).vendor[k];
            View(k, row) in ViewItems(db, store, itemCode, itemName, true, true).value <==>
              (itemCode == Some(k.item) || itemName == Some(row.name))
  {
    ListedIff(HomeShard(db, store).vendor, store, itemCode, itemName, k);
  }

  /** The filters are an OR, not an AND: with items W1 "Gadget", W2 "Widget" and
      W3 "Other" in store 7, code W1 with name Widget lists W1 and W2 and not W3;
      name Widget alone lists W2 only. */
  lemma OrNotAnd(db: Db)
    requires |db.shards| > 0
    requires HomeShard(db, 7).vendor == map[
      ItemKey("W1", 7) := VendorRow("Gadget", 3, 250),
      ItemKey("W2", 7) := VendorRow("Widget", 0, 199),
      ItemKey("W3", 7) := VendorRow("Other", 1, 5)]
    ensures ViewItems(db, 7, Some("W1"), Some("Widget"), true, true).value
              == {ItemView("W1", "Gadget", 3, 250), ItemView("W2", "Widget", 0, 199)}
    ensures ViewItems(db, 7, None, Some("Widget"), true, true).value == {ItemView("W2", "Widget", 0, 199)}
  {
    var vendor := HomeShard(db, 7).vendor;
    var both := ViewItems(db, 7, Some("W1"), Some("Widget"), true, true).value;
    var byName := ViewItems(db, 7, None, Some("Widget"), true, true).value;
    assert "W1" != "W2" && "W1" != "W3" && "Widget" != "Gadget" && "Widget" != "Other";
    ListedIff(vendor, 7, Some("W1"), Some("Widget"), ItemKey("W1", 7));
    ListedIff(vendor, 7, Some("W1"), Some("Widget"), ItemKey("W2", 7));
    ListedIff(vendor, 7, None, Some("Widget"), ItemKey("W2", 7));
    forall v | v in both
      ensures v == ItemView("W1", "Gadget", 3, 250) || v == ItemView("W2", "Widget", 0, 199)
    {
    }
    forall v | v in byName
      ensures v == ItemView("W2", "Widget", 0, 199)
    {
    }
  }

  // ----- get_stores ----------------------------------------------------------

  /** A row of get_stores: all columns, or store_code and address. */
  datatype StoreRecord =
    | FullRecord(code: StoreCode, address: string, opening: TimeOfDay, closing: TimeOfDay)
    | BriefRecord(code: StoreCode, address: string)

  function Record(code: StoreCode, s: Store, allColumns: bool): StoreRecord
  {
    if allColumns then FullRecord(code, s.address, s.opening, s.closing)
    else BriefRecord(code, s.address)
  }

  /** get_stores: the central Stores table, projected to the columns asked for;
      the empty list when the query fails. */
  function GetStores(central: map<StoreCode, Store>, allColumns: bool, queryOk: bool): (r: set<StoreRecord>)
    ensures !queryOk ==> r == {}
    ensures forall rec :: rec in r ==>
              && rec.code in central && rec.address == central[rec.code].address
              && (rec.FullRecord? <==> allColumns)
              && (rec.FullRecord? ==> rec.opening == central[rec.code].opening && rec.closing == central[rec.code].closing)
  {
    if !queryOk then {} else set c | c in central :: Record(c, central[c], allColumns)
  }

  /** Every central store appears in a successful listing. */
  lemma StoreListed(central: map<StoreCode, Store>, allColumns: bool, code: StoreCode)
    requires code in central
    ensures Record(code, central[code], allColumns) in GetStores(central, allColumns, true)
  {
  }
}
