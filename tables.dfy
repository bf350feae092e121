/** The tables of the sharded retail database, as values, and the invariants
    the admin actions exist to keep. Every shard holds Stores, Vendor and
    Customer_Portal; the central database holds only Stores. */
module Tables {
  import opened ShardLocator

  type StoreCode = int
  type ItemCode = string
  /** Prices in whole cents. */
  type Cents = int

  /** A time of day in seconds since midnight; the actions only copy it. */
  datatype TimeOfDay = TimeOfDay(seconds: nat)

  datatype Option<T> = None | Some(value: T)

  /** A row of Stores, keyed by its store code. */
  datatype Store = Store(address: string, opening: TimeOfDay, closing: TimeOfDay)

  /** The composite key of Vendor and Customer_Portal. */
  datatype ItemKey = ItemKey(item: ItemCode, store: StoreCode)

  datatype VendorRow = VendorRow(name: string, quantity: int, price: Cents)
  datatype PortalRow = PortalRow(name: string, price: Cents, inStock: bool)

  datatype Shard = Shard(
    stores: map<StoreCode, Store>,
    vendor: map<ItemKey, VendorRow>,
    portal: map<ItemKey, PortalRow>)

  /** The shard databases, indexed 0 .. N-1, and the central database. */
  datatype Db = Db(shards: seq<Shard>, central: map<StoreCode, Store>)

  const EmptyShard := Shard(map[], map[], map[])

  /** What the world does to one admin call: whether the shard and central
      connections open, and whether the first and the second statement (with
      its commit), in the order the call issues them, go through. The item
      actions open no central connection and do not consult centralUp. */
  datatype Env = Env(shardUp: bool, centralUp: bool, firstOk: bool, secondOk: bool)

  /** Completed: every statement committed. NotConnected: a connection was
      missing and nothing ran. Failed: a statement failed before anything was
      committed. PartiallyApplied: the first statement committed and the
      second failed, so its change stays. */
  datatype Outcome = Completed | NotConnected | Failed | PartiallyApplied

  datatype Step = Step(db: Db, outcome: Outcome)

  /** The index of the shard that owns a store. */
  function Home(db: Db, code: StoreCode): (i: nat)
    requires |db.shards| > 0
    ensures i < |db.shards|
  {
    GetShard(code, |db.shards|)
  }

  /** The Stores table of the shard that owns `code`. */
  function HomeStores(db: Db, code: StoreCode): map<StoreCode, Store>
    requires |db.shards| > 0
  {
    HomeShard(db, code).stores
  }

  /** The shard that owns `code`. */
  function HomeShard(db: Db, code: StoreCode): Shard
    requires |db.shards| > 0
  {
    db.shards[Home(db, code)]
  }

  /** Replaces shard i (a committed change to that shard). */
  function Put(db: Db, i: nat, s: Shard): (r: Db)
    requires i < |db.shards|
  {
    db.(shards := db.shards[i := s])
  }

  // ----- Frames --------------------------------------------------------------

  /** Every shard but i is untouched. */
  ghost predicate OthersUnchanged(db: Db, db': Db, i: nat)
  {
    && |db'.shards| == |db.shards|
    && forall j :: 0 <= j < |db.shards| && j != i ==> db'.shards[j] == db.shards[j]
  }

  /** Every key but k maps as before. */
  ghost predicate OthersKept<K, V>(before: map<K, V>, after: map<K, V>, k: K)
  {
    after - {k} == before - {k}
  }

  /** A completed INSERT of a new key: the row is there and nothing else moved. */
  ghost predicate RowInserted<K, V>(before: map<K, V>, after: map<K, V>, k: K, v: V)
  {
    k !in before && k in after && after[k] == v && OthersKept(before, after, k)
  }

  /** A completed DELETE of a key: it is gone and nothing else moved. */
  ghost predicate RowDeleted<K, V>(before: map<K, V>, after: map<K, V>, k: K)
  {
    k !in after && OthersKept(before, after, k)
  }

  // ----- Invariants ----------------------------------------------------------

  /** Every row lives in the shard its store code routes to. */
  ghost predicate Placed(db: Db)
    requires |db.shards| > 0
  {
    && (forall i, c :: 0 <= i < |db.shards| && c in db.shards[i].stores ==> Home(db, c) == i)
    && (forall i, k :: 0 <= i < |db.shards| && k in db.shards[i].vendor ==> Home(db, k.store) == i)
    && (forall i, k :: 0 <= i < |db.shards| && k in db.shards[i].portal ==> Home(db, k.store) == i)
  }

  /** Two Stores tables agree on the row of code c. */
  ghost predicate SameRow(a: map<StoreCode, Store>, b: map<StoreCode, Store>, c: StoreCode)
  {
    && (c in a <==> c in b)
    && (c in a && c in b ==> a[c] == b[c])
  }

  /** The consistency the dual write exists for: the owning shard's copy of
      every store equals the central copy. */
  ghost predicate Mirrored(db: Db)
    requires |db.shards| > 0
  {
    forall c :: SameRow(HomeStores(db, c), db.central, c)
  }

  /** The customer-facing row shows the vendor row's name and price, and is in
      stock exactly when the quantity is positive. */
  predicate Mirrors(v: VendorRow, p: PortalRow)
  {
    p.name == v.name && p.price == v.price && p.inStock == (v.quantity > 0)
  }

  /** Customer_Portal is the derived view of Vendor within a shard. */
  ghost predicate Derived(s: Shard)
  {
    && s.portal.Keys == s.vendor.Keys
    && forall k :: k in s.vendor && k in s.portal ==> Mirrors(s.vendor[k], s.portal[k])
  }

  ghost predicate AllDerived(db: Db)
  {
    forall i :: 0 <= i < |db.shards| ==> Derived(db.shards[i])
  }

  /** The state every completed admin action leaves behind. */
  ghost predicate Valid(db: Db)
  {
    |db.shards| > 0 && Placed(db) && Mirrored(db) && AllDerived(db)
  }

  /** A fresh deployment: N empty shards and an empty central database. */
  function Fresh(n: nat): (db: Db)
    requires n > 0
    ensures |db.shards| == n && Valid(db)
  {
    Db(seq(n, _ => EmptyShard), map[])
  }
}
