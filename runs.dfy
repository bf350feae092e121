/** Sequences of admin calls: the invariants hold after any run in which no
    call was left half-applied. */
module Runs {
  import opened ShardLocator
  import opened Tables
  import StoreWrites
  import StoreWriteLemmas
  import ItemWrites
  import ItemWriteLemmas
  import Queries

  /** One call of the admin surface that changes data. */
  datatype Request =
    | InsertStore(code: StoreCode, row: Store)
    | UpdateHours(code: StoreCode, opening: TimeOfDay, closing: TimeOfDay)
    | DeleteStore(code: StoreCode)
    | StockNewItem(item: ItemCode, store: StoreCode, name: string, quantity: int, price: Cents)
    | RestockItem(item: ItemCode, store: StoreCode, quantity: int)
    | PriceChange(item: ItemCode, store: StoreCode, price: Cents)
    | RemoveItem(item: ItemCode, store: StoreCode)

  function Apply(db: Db, req: Request, env: Env): (r: Step)
    requires |db.shards| > 0
    ensures |r.db.shards| == |db.shards|
  {
    match req
    case InsertStore(code, row) => StoreWrites.InsertStore(db, code, row, env)
    case UpdateHours(code, opening, closing) => StoreWrites.UpdateHours(db, code, opening, closing, env)
    case DeleteStore(code) => StoreWrites.DeleteStore(db, code, env)
    case StockNewItem(item, store, name, quantity, price) => ItemWrites.StockNewItem(db, item, store, name, quantity, price, env)
    case RestockItem(item, store, quantity) => ItemWrites.RestockItem(db, item, store, quantity, env)
    case PriceChange(item, store, price) => ItemWrites.PriceChange(db, item, store, price, env)
    case RemoveItem(item, store) => ItemWrites.RemoveItem(db, item, store, env)
  }

  lemma ApplyKeepsValid(db: Db, req: Request, env: Env)
    requires Valid(db)
    ensures Apply(db, req, env).outcome != PartiallyApplied ==> Valid(Apply(db, req, env).db)
  {
    match req
    case InsertStore(code, row) => StoreWriteLemmas.InsertStoreKeepsValid(db, code, row, env);
    case UpdateHours(code, opening, closing) => StoreWriteLemmas.UpdateHoursKeepsValid(db, code, opening, closing, env);
    case DeleteStore(code) => StoreWriteLemmas.DeleteStoreKeepsValid(db, code, env);
    case StockNewItem(item, store, name, quantity, price) => ItemWriteLemmas.StockNewItemKeepsValid(db, item, store, name, quantity, price, env);
    case RestockItem(item, store, quantity) => ItemWriteLemmas.RestockItemKeepsValid(db, item, store, quantity, env);
    case PriceChange(item, store, price) => ItemWriteLemmas.PriceChangeKeepsValid(db, item, store, price, env);
    case RemoveItem(item, store) => ItemWriteLemmas.RemoveItemKeepsValid(db, item, store, env);
  }

  /** The final database of a run and the outcome of each call, in order. */
  datatype Trace = Trace(db: Db, outcomes: seq<Outcome>)

  function Run(db: Db, calls: seq<(Request, Env)>): (t: Trace)
    requires |db.shards| > 0
    ensures |t.db.shards| == |db.shards|
    ensures |t.outcomes| == |calls|
    decreases |calls|
  {
    if calls == [] then Trace(db, [])
    else
      var s := Apply(db, calls[0].0, calls[0].1);
      var rest := Run(s.db, calls[1..]);
      Trace(rest.db, [s.outcome] + rest.outcomes)
  }

  /** Starting from a valid database, a run in which no call ended half-applied
      ends valid: every store's shard copy equals its central copy, every row is
      in its home shard, and in_stock == (quantity > 0) for every item. */
  lemma {:induction false} RunKeepsValid(db: Db, calls: seq<(Request, Env)>)
    requires Valid(db)
    requires forall i :: 0 <= i < |Run(db, calls).outcomes| ==> Run(db, calls).outcomes[i] != PartiallyApplied
    ensures Valid(Run(db, calls).db)
    decreases |calls|
  {
    if calls != [] {
      var s := Apply(db, calls[0].0, calls[0].1);
      var t := Run(db, calls);
      var rest := Run(s.db, calls[1..]);
      assert t.outcomes == [s.outcome] + rest.outcomes;
      assert t.outcomes[0] == s.outcome;
      ApplyKeepsValid(db, calls[0].0, calls[0].1);
      forall i | 0 <= i < |rest.outcomes|
        ensures rest.outcomes[i] != PartiallyApplied
      {
        assert rest.outcomes[i] == t.outcomes[i + 1];
      }
      RunKeepsValid(s.db, calls[1..]);
    }
  }

  /** A completed insert_store of store 42 is visible in the central listing
      and in a direct read of shard 42 mod N, with the same values. */
  lemma InsertedStoreIsListed(db: Db, row: Store, env: Env)
    requires |db.shards| > 0
    requires StoreWrites.InsertStore(db, 42, row, env).outcome == Completed
    ensures var r := StoreWrites.InsertStore(db, 42, row, env).db;
            && Queries.FullRecord(42, row.address, row.opening, row.closing) in Queries.GetStores(r.central, true, true)
            && 42 in r.shards[GetShard(42, |db.shards|)].stores
            && r.shards[GetShard(42, |db.shards|)].stores[42] == row
  {
    var r := StoreWrites.InsertStore(db, 42, row, env).db;
    Queries.StoreListed(r.central, true, 42);
  }
}
