/** The dual write of store rows: insert_store, update_hours and delete_store
    run one statement on the owning shard's Stores, commit it, and then run the
    same statement on the central Stores and commit again. Both connections
    are opened first; if either is missing nothing runs. */
module StoreWrites {
  import opened Tables

  // ----- What a completed statement does to a Stores table ------------------

  /** UPDATE ... SET opening_time, closing_time WHERE store_code: the same keys;
      the addressed row keeps its address and takes the new hours. */
  ghost predicate HoursSet(before: map<StoreCode, Store>, after: map<StoreCode, Store>, code: StoreCode, opening: TimeOfDay, closing: TimeOfDay)
  {
    && after.Keys == before.Keys
    && (code in before ==> after[code] == Store(before[code].address, opening, closing))
    && OthersKept(before, after, code)
  }

  /** Only the owning shard's Stores table and the central table may change. */
  ghost predicate StoresFrame(db: Db, db': Db, code: StoreCode)
    requires |db.shards| > 0
  {
    && OthersUnchanged(db, db', Home(db, code))
    && HomeShard(db', code).vendor == HomeShard(db, code).vendor
    && HomeShard(db', code).portal == HomeShard(db, code).portal
  }

  /** The shard statement committed: its table is now `after`. */
  function CommitHome(db: Db, code: StoreCode, after: map<StoreCode, Store>): Db
    requires |db.shards| > 0
  {
    Put(db, Home(db, code), HomeShard(db, code).(stores := after))
  }

  /** The row with new opening and closing hours, when the key is there. */
  function Retimed(t: map<StoreCode, Store>, code: StoreCode, opening: TimeOfDay, closing: TimeOfDay): map<StoreCode, Store>
  {
    if code in t then t[code := t[code].(opening := opening, closing := closing)] else t
  }

  // ----- The three dual writes ----------------------------------------------

  /** insert_store. An INSERT fails on a duplicate key or when the statement fails. */
  function InsertStore(db: Db, code: StoreCode, row: Store, env: Env): (r: Step)
    requires |db.shards| > 0
    ensures StoresFrame(db, r.db, code)
    ensures r.outcome == NotConnected <==> !(env.shardUp && env.centralUp)
    ensures r.outcome == Failed <==>
              env.shardUp && env.centralUp && (code in HomeStores(db, code) || !env.firstOk)
    ensures r.outcome in {NotConnected, Failed} ==> r.db == db
    ensures r.outcome in {Completed, PartiallyApplied} ==>
              RowInserted(HomeStores(db, code), HomeStores(r.db, code), code, row)
    ensures r.outcome == Completed ==>
              RowInserted(db.central, r.db.central, code, row)
              && HomeStores(r.db, code)[code] == r.db.central[code]
    ensures r.outcome == PartiallyApplied <==>
              && env.shardUp && env.centralUp && env.firstOk && code !in HomeStores(db, code)
              && (code in db.central || !env.secondOk)
    ensures r.outcome == PartiallyApplied ==> r.db.central == db.central
  {
    var home := HomeStores(db, code);
    if !(env.shardUp && env.centralUp) then Step(db, NotConnected)
    else if code in home || !env.firstOk then Step(db, Failed)
    else
      var committed := CommitHome(db, code, home[code := row]);
      if code in db.central || !env.secondOk then Step(committed, PartiallyApplied)
      else Step(committed.(central := db.central[code := row]), Completed)
  }

  /** update_hours. An UPDATE that matches no row still succeeds. */
  function UpdateHours(db: Db, code: StoreCode, opening: TimeOfDay, closing: TimeOfDay, env: Env): (r: Step)
    requires |db.shards| > 0
    ensures StoresFrame(db, r.db, code)
    ensures r.outcome == NotConnected <==> !(env.shardUp && env.centralUp)
    ensures r.outcome == Failed <==> env.shardUp && env.centralUp && !env.firstOk
    ensures r.outcome == PartiallyApplied <==>
              env.shardUp && env.centralUp && env.firstOk && !env.secondOk
    ensures r.outcome in {NotConnected, Failed} ==> r.db == db
    ensures r.outcome in {Completed, PartiallyApplied} ==>
              HoursSet(HomeStores(db, code), HomeStores(r.db, code), code, opening, closing)
    ensures r.outcome == Completed ==> HoursSet(db.central, r.db.central, code, opening, closing)
    ensures r.outcome == PartiallyApplied ==> r.db.central == db.central
  {
    if !(env.shardUp && env.centralUp) then Step(db, NotConnected)
    else if !env.firstOk then Step(db, Failed)
    else
      var committed := CommitHome(db, code, Retimed(HomeStores(db, code), code, opening, closing));
      if !env.secondOk then Step(committed, PartiallyApplied)
      else Step(committed.(central := Retimed(db.central, code, opening, closing)), Completed)
  }

  /** delete_store. A DELETE that matches no row still succeeds. */
  function DeleteStore(db: Db, code: StoreCode, env: Env): (r: Step)
    requires |db.shards| > 0
    ensures StoresFrame(db, r.db, code)
    ensures r.outcome == NotConnected <==> !(env.shardUp && env.centralUp)
    ensures r.outcome == Failed <==> env.shardUp && env.centralUp && !env.firstOk
    ensures r.outcome == PartiallyApplied <==>
              env.shardUp && env.centralUp && env.firstOk && !env.secondOk
    ensures r.outcome in {NotConnected, Failed} ==> r.db == db
    ensures r.outcome in {Completed, PartiallyApplied} ==>
              RowDeleted(HomeStores(db, code), HomeStores(r.db, code), code)
    ensures r.outcome == Completed ==> RowDeleted(db.central, r.db.central, code)
    ensures r.outcome == PartiallyApplied ==> r.db.central == db.central
  {
    if !(env.shardUp && env.centralUp) then Step(db, NotConnected)
    else if !env.firstOk then Step(db, Failed)
    else
      var committed := CommitHome(db, code, HomeStores(db, code) - {code});
      if !env.secondOk then Step(committed, PartiallyApplied)
      else Step(committed.(central := db.central - {code}), Completed)
  }
}

/** What the dual writes do to the invariants: every outcome but a partial one
    keeps the two copies of every store equal, and a partial one breaks them. */
module StoreWriteLemmas {
  import opened Tables
  import opened StoreWrites

  /** A change confined to the row of `code` in the owning shard's Stores and in
      central, after which the two rows agree, keeps the whole database valid. */
  lemma KeepsValid(db: Db, db': Db, code: StoreCode)
    requires Valid(db) && StoresFrame(db, db', code)
    requires HomeStores(db', code).Keys <= HomeStores(db, code).Keys + {code}
    requires OthersKept(HomeStores(db, code), HomeStores(db', code), code)
    requires OthersKept(db.central, db'.central, code)
    requires SameRow(HomeStores(db', code), db'.central, code)
    ensures Valid(db')
  {
    var n, h := |db.shards|, Home(db, code);
    forall c
      ensures SameRow(HomeStores(db', c), db'.central, c)
    {
      if c != code {
        assert SameRow(HomeStores(db, c), db.central, c);
        assert c in db.central <==> c in db.central - {code};
        assert c in db'.central <==> c in db'.central - {code};
        if Home(db, c) == h {
          assert c in HomeStores(db, c) <==> c in HomeStores(db, code) - {code};
          assert c in HomeStores(db', c) <==> c in HomeStores(db', code) - {code};
          if c in HomeStores(db', c) {
            assert HomeStores(db', c)[c] == (HomeStores(db', code) - {code})[c];
            assert HomeStores(db, c)[c] == (HomeStores(db, code) - {code})[c];
          }
          if c in db'.central {
            assert db'.central[c] == (db'.central - {code})[c];
            assert db.central[c] == (db.central - {code})[c];
          }
        } else {
          if c in db'.central {
            assert db'.central[c] == (db'.central - {code})[c];
            assert db.central[c] == (db.central - {code})[c];
          }
        }
      }
    }
    forall i, c | 0 <= i < n && c in db'.shards[i].stores
      ensures Home(db', c) == i
    {
      assert Home(db', c) == Home(db, c);
      if i != h {
        assert db'.shards[i] == db.shards[i];
      } else if c != code {
        assert c in HomeStores(db', code) - {code};
        assert c in HomeStores(db, code);
      }
    }
    forall i | 0 <= i < n
      ensures Derived(db'.shards[i])
    {
      assert Derived(db.shards[i]);
    }
  }

  lemma InsertStoreKeepsValid(db: Db, code: StoreCode, row: Store, env: Env)
    requires Valid(db)
    ensures var r := InsertStore(db, code, row, env);
            r.outcome != PartiallyApplied ==> Valid(r.db)
  {
    var r := InsertStore(db, code, row, env);
    if r.outcome == Completed {
      KeepsValid(db, r.db, code);
    }
  }

  /** In a valid database a partial insert leaves the store in its shard and not
      in central: the copies diverge. */
  lemma InsertStorePartialDiverges(db: Db, code: StoreCode, row: Store, env: Env)
    requires Valid(db)
    requires InsertStore(db, code, row, env).outcome == PartiallyApplied
    ensures var r := InsertStore(db, code, row, env);
            code in HomeStores(r.db, code) && code !in r.db.central && !Mirrored(r.db)
  {
    var r := InsertStore(db, code, row, env);
    assert SameRow(HomeStores(db, code), db.central, code);
    assert !SameRow(HomeStores(r.db, code), r.db.central, code);
  }

  /** A failing central INSERT after the shard INSERT committed: the call ends
      partial, the shard keeps the new row, central is unchanged, and in a valid
      database the two copies now diverge. */
  lemma InsertStoreCentralFailure(db: Db, code: StoreCode, row: Store, env: Env)
    requires Valid(db)
    requires env.shardUp && env.centralUp && env.firstOk && !env.secondOk
    requires code !in HomeStores(db, code)
    ensures var r := InsertStore(db, code, row, env);
            && r.outcome == PartiallyApplied
            && code in HomeStores(r.db, code) && HomeStores(r.db, code)[code] == row
            && r.db.central == db.central
            && !Mirrored(r.db)
  {
    InsertStorePartialDiverges(db, code, row, env);
  }

  lemma UpdateHoursKeepsValid(db: Db, code: StoreCode, opening: TimeOfDay, closing: TimeOfDay, env: Env)
    requires Valid(db)
    ensures var r := UpdateHours(db, code, opening, closing, env);
            r.outcome != PartiallyApplied ==> Valid(r.db)
  {
    var r := UpdateHours(db, code, opening, closing, env);
    if r.outcome == Completed {
      assert SameRow(HomeStores(db, code), db.central, code);
      KeepsValid(db, r.db, code);
    }
  }

  /** A partial hours update of an existing store whose hours change leaves the
      shard with the new hours and central with the old ones. */
  lemma UpdateHoursPartialDiverges(db: Db, code: StoreCode, opening: TimeOfDay, closing: TimeOfDay, env: Env)
    requires Valid(db) && code in db.central
    requires (db.central[code].opening, db.central[code].closing) != (opening, closing)
    requires UpdateHours(db, code, opening, closing, env).outcome == PartiallyApplied
    ensures var r := UpdateHours(db, code, opening, closing, env);
            HomeStores(r.db, code)[code].opening == opening
            && HomeStores(r.db, code)[code].closing == closing
            && r.db.central[code] == db.central[code]
            && !Mirrored(r.db)
  {
    var r := UpdateHours(db, code, opening, closing, env);
    assert SameRow(HomeStores(db, code), db.central, code);
    assert !SameRow(HomeStores(r.db, code), r.db.central, code);
  }

  lemma DeleteStoreKeepsValid(db: Db, code: StoreCode, env: Env)
    requires Valid(db)
    ensures var r := DeleteStore(db, code, env);
            r.outcome != PartiallyApplied ==> Valid(r.db)
  {
    var r := DeleteStore(db, code, env);
    if r.outcome == Completed {
      KeepsValid(db, r.db, code);
    }
  }

  /** A partial delete of an existing store leaves it only in central. */
  lemma DeleteStorePartialDiverges(db: Db, code: StoreCode, env: Env)
    requires Valid(db) && code in db.central
    requires DeleteStore(db, code, env).outcome == PartiallyApplied
    ensures var r := DeleteStore(db, code, env);
            code !in HomeStores(r.db, code) && code in r.db.central && !Mirrored(r.db)
  {
    var r := DeleteStore(db, code, env);
    assert !SameRow(HomeStores(r.db, code), r.db.central, code);
  }
}
