/** The admin actions as the source runs them: a cluster object whose shard
    and central tables change statement by statement, each commit making the
    change so far permanent. Each method is tied to the specification function
    of the same name, whose properties the lemma modules prove. */
module AdminActions {
  import opened ShardLocator
  import opened Tables
  import StoreWrites
  import StoreWriteLemmas
  import ItemWrites
  import ItemWriteLemmas

  class Cluster {
    /** The shard databases, one per entry of the shard configuration. */
    var shards: seq<Shard>
    /** The central database's Stores table. */
    var central: map<StoreCode, Store>

    function State(): Db
      reads this
    {
      Db(shards, central)
    }

    ghost predicate Valid()
      reads this
    {
      Tables.Valid(State())
    }

    /** n empty shards and an empty central database. */
    constructor (n: nat)
      requires n > 0
      ensures State() == Fresh(n) && Valid()
    {
      shards := seq(n, _ => EmptyShard);
      central := map[];
    }

    method InsertStore(code: StoreCode, address: string, opening: TimeOfDay, closing: TimeOfDay, env: Env)
      returns (outcome: Outcome)
      requires |shards| > 0
      modifies this
      ensures Step(State(), outcome) == StoreWrites.InsertStore(old(State()), code, Store(address, opening, closing), env)
      ensures old(Valid()) && outcome != PartiallyApplied ==> Valid()
    {
      ghost var before := State();
      var i := GetShard(code, |shards|);
      if !(env.shardUp && env.centralUp) {
        return NotConnected;
      }
      var row := Store(address, opening, closing);
      // INSERT INTO Stores on the shard, then commit.
      if code in shards[i].stores || !env.firstOk {
        return Failed;
      }
      shards := shards[i := shards[i].(stores := shards[i].stores[code := row])];
      // INSERT INTO Stores on central, then commit.
      if code in central || !env.secondOk {
        return PartiallyApplied;
      }
      central := central[code := row];
      outcome := Completed;
      if Tables.Valid(before) {
        StoreWriteLemmas.InsertStoreKeepsValid(before, code, row, env);
      }
    }

    method UpdateHours(code: StoreCode, opening: TimeOfDay, closing: TimeOfDay, env: Env)
      returns (outcome: Outcome)
      requires |shards| > 0
      modifies this
      ensures Step(State(), outcome) == StoreWrites.UpdateHours(old(State()), code, opening, closing, env)
      ensures old(Valid()) && outcome != PartiallyApplied ==> Valid()
    {
      ghost var before := State();
      var i := GetShard(code, |shards|);
      if !(env.shardUp && env.centralUp) {
        return NotConnected;
      }
      // UPDATE Stores on the shard, then commit.
      if !env.firstOk {
        return Failed;
      }
      var stores := shards[i].stores;
      if code in stores {
        stores := stores[code := stores[code].(opening := opening, closing := closing)];
      }
      shards := shards[i := shards[i].(stores := stores)];
      // UPDATE Stores on central, then commit.
      if !env.secondOk {
        return PartiallyApplied;
      }
      if code in central {
        central := central[code := central[code].(opening := opening, closing := closing)];
      }
      outcome := Completed;
      if Tables.Valid(before) {
        StoreWriteLemmas.UpdateHoursKeepsValid(before, code, opening, closing, env);
      }
    }

    method DeleteStore(code: StoreCode, env: Env) returns (outcome: Outcome)
      requires |shards| > 0
      modifies this
      ensures Step(State(), outcome) == StoreWrites.DeleteStore(old(State()), code, env)
      ensures old(Valid()) && outcome != PartiallyApplied ==> Valid()
    {
      ghost var before := State();
      var i := GetShard(code, |shards|);
      if !(env.shardUp && env.centralUp) {
        return NotConnected;
      }
      // DELETE FROM Stores on the shard, then commit.
      if !env.firstOk {
        return Failed;
      }
      shards := shards[i := shards[i].(stores := shards[i].stores - {code})];
      // DELETE FROM Stores on central, then commit.
      if !env.secondOk {
        return PartiallyApplied;
      }
      central := central - {code};
      outcome := Completed;
      if Tables.Valid(before) {
        StoreWriteLemmas.DeleteStoreKeepsValid(before, code, env);
      }
    }

    method StockNewItem(item: ItemCode, store: StoreCode, name: string, quantity: int, price: Cents, env: Env)
      returns (outcome: Outcome)
      requires |shards| > 0
      modifies this
      ensures Step(State(), outcome) == ItemWrites.StockNewItem(old(State()), item, store, name, quantity, price, env)
      ensures old(Valid()) ==> Valid()
    {
      ghost var before := State();
      var i := GetShard(store, |shards|);
      if !env.shardUp {
        return NotConnected;
      }
      var key := ItemKey(item, store);
      // INSERT INTO Vendor (not yet committed).
      if key in shards[i].vendor || !env.firstOk {
        return Failed;
      }
      var vendor := shards[i].vendor[key := VendorRow(name, quantity, price)];
      // INSERT INTO Customer_Portal with in_stock by the quantity.
      var portal := shards[i].portal;
      if key in portal || !env.secondOk {
        // The connection closes without a commit: the Vendor row is rolled back.
        return Failed;
      }
      if quantity > 0 {
        portal := portal[key := PortalRow(name, price, true)];
      } else {
        portal := portal[key := PortalRow(name, price, false)];
      }
      // The one commit.
      shards := shards[i := shards[i].(vendor := vendor, portal := portal)];
      outcome := Completed;
      if Tables.Valid(before) {
        ItemWriteLemmas.StockNewItemKeepsValid(before, item, store, name, quantity, price, env);
      }
    }

    method RestockItem(item: ItemCode, store: StoreCode, quantity: int, env: Env) returns (outcome: Outcome)
      requires |shards| > 0
      modifies this
      ensures Step(State(), outcome) == ItemWrites.RestockItem(old(State()), item, store, quantity, env)
      ensures old(Valid()) && outcome != PartiallyApplied ==> Valid()
    {
      ghost var before := State();
      var i := GetShard(store, |shards|);
      if !env.shardUp {
        return NotConnected;
      }
      var key := ItemKey(item, store);
      // UPDATE Vendor SET quantity, then commit.
      if !env.firstOk {
        return Failed;
      }
      var vendor := shards[i].vendor;
      if key in vendor {
        vendor := vendor[key := vendor[key].(quantity := quantity)];
      }
      shards := shards[i := shards[i].(vendor := vendor)];
      // UPDATE Customer_Portal SET in_stock, then commit.
      if !env.secondOk {
        return PartiallyApplied;
      }
      var portal := shards[i].portal;
      if key in portal {
        portal := portal[key := portal[key].(inStock := quantity > 0)];
      }
      shards := shards[i := shards[i].(portal := portal)];
      outcome := Completed;
      if Tables.Valid(before) {
        ItemWriteLemmas.RestockItemKeepsValid(before, item, store, quantity, env);
      }
    }

    method PriceChange(item: ItemCode, store: StoreCode, price: Cents, env: Env) returns (outcome: Outcome)
      requires |shards| > 0
      modifies this
      ensures Step(State(), outcome) == ItemWrites.PriceChange(old(State()), item, store, price, env)
      ensures old(Valid()) && outcome != PartiallyApplied ==> Valid()
    {
      ghost var before := State();
      var i := GetShard(store, |shards|);
      if !env.shardUp {
        return NotConnected;
      }
      var key := ItemKey(item, store);
      // UPDATE Vendor SET price, then commit.
      if !env.firstOk {
        return Failed;
      }
      var vendor := shards[i].vendor;
      if key in vendor {
        vendor := vendor[key := vendor[key].(price := price)];
      }
      shards := shards[i := shards[i].(vendor := vendor)];
      // UPDATE Customer_Portal SET price, then commit.
      if !env.secondOk {
        return PartiallyApplied;
      }
      var portal := shards[i].portal;
      if key in portal {
        portal := portal[key := portal[key].(price := price)];
      }
      shards := shards[i := shards[i].(portal := portal)];
      outcome := Completed;
      if Tables.Valid(before) {
        ItemWriteLemmas.PriceChangeKeepsValid(before, item, store, price, env);
      }
    }

    method RemoveItem(item: ItemCode, store: StoreCode, env: Env) returns (outcome: Outcome)
      requires |shards| > 0
      modifies this
      ensures Step(State(), outcome) == ItemWrites.RemoveItem(old(State()), item, store, env)
      ensures old(Valid()) && outcome != PartiallyApplied ==> Valid()
    {
      ghost var before := State();
      var i := GetShard(store, |shards|);
      if !env.shardUp {
        return NotConnected;
      }
      var key := ItemKey(item, store);
      // DELETE FROM Customer_Portal, then commit.
      if !env.firstOk {
        return Failed;
      }
      shards := shards[i := shards[i].(portal := shards[i].portal - {key})];
      // DELETE FROM Vendor, then commit.
      if !env.secondOk {
        return PartiallyApplied;
      }
      shards := shards[i := shards[i].(vendor := shards[i].vendor - {key})];
      outcome := Completed;
      if Tables.Valid(before) {
        ItemWriteLemmas.RemoveItemKeepsValid(before, item, store, env);
      }
    }
  }
}
