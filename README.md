# Sharded retail admin actions, modelled in Dafny

This project models the administrative actions of a retail chain whose data is
split across N MySQL shards. A central database mirrors the store metadata.

- A store is routed to shard `store_code % N`.
- Store rows (`Stores`) are written twice: first to the owning shard, then to
  the central database. Each write is committed separately (a "dual write").
- Item rows live only in the owning shard, in two tables. `Vendor` is the
  inventory. `Customer_Portal` is the customer-facing view, with an `in_stock`
  flag derived from the quantity.

The databases are values. `Tables.Db` holds a sequence of shards and the
central `Stores` map. Each shard holds three maps:

- `stores`: store code to (address, opening, closing)
- `vendor`: (item, store) to (name, quantity, price)
- `portal`: (item, store) to (name, price, in_stock)

The world's behaviour for one call is an `Env` value. It says whether the
shard and central connections open, and whether the first and second
statements (each with its commit) go through. An INSERT also fails on a
duplicate key. An UPDATE or DELETE that matches no row succeeds. Each call ends
with one of four outcomes:

- `Completed`
- `NotConnected`: a connection was missing and nothing ran
- `Failed`: nothing was committed
- `PartiallyApplied`: the first commit stays and the second statement failed

Module layout:

- `ShardLocator` (shard_locator.dfy): `get_shard`.
- `Tables` (tables.dfy): the tables and the three invariants.
  - `Placed`: every row is in its home shard.
  - `Mirrored`: every store's shard copy equals its central copy.
  - `Derived`: Customer_Portal has the same keys as Vendor, with the same
    name and price, and `in_stock == (quantity > 0)`.
- `StoreWrites`, `StoreWriteLemmas` (store_writes.dfy): `insert_store`,
  `update_hours` and `delete_store` as functions from a database to a `Step`
  (the new database and the outcome), and what they do to the invariants.
- `ItemWrites`, `ItemWriteLemmas` (item_writes.dfy): `stock_new_item`,
  `restock_item`, `price_change` and `remove_item`.
- `Queries` (queries.dfy): the `view_items` filter and the `get_stores`
  projection.
- `Runs` (runs.dfy): sequences of calls, and the invariant over a run.
- `AdminActions.Cluster` (admin_actions.dfy): the same actions as methods of
  an object whose `shards` and `central` fields change statement by
  statement. Each method is proved equal to the function of the same name.

Four behaviours of the code that the model keeps as written:

- `stock_new_item` issues both INSERTs and then commits once. Either both rows
  appear or neither does. It is not two individually committed statements.
- `remove_item` deletes from Customer_Portal before Vendor. The other item
  mutators write Vendor first.
- Negative store codes are not rejected. Python's `%` sends them to a shard in
  range.
- The write actions return nothing. When a statement fails they print an
  error. When the shard statement fails, `insert_store` and `update_hours`
  also raise from their `finally` block (see "## Left out"). A failing central
  statement, the partial case, only prints. The model's `Outcome` tells the
  cases apart instead, and `PartiallyApplied` is the divergence case.

## Model

| member | source | states |
|---|---|---|
| `ShardLocator.GetShard` | Project/src/actions/admin_actions.py:49-52 | the shard lies in [0, N) and is the remainder of the code under floor division by N, negative codes included |
| `ShardLocator.GetShardUnique` | Project/src/actions/admin_actions.py:49-52 | any index in [0, N) that differs from the code by a multiple of N is the shard get_shard returns |
| `ShardLocator.GetShardPeriodic` | Project/src/actions/admin_actions.py:49-52 | codes that differ by a multiple of N are routed to the same shard |
| `ShardLocator.NegativeCodeWraps` | Project/src/actions/admin_actions.py:52 | store code -1 goes to shard N-1, as Python's `%` gives |
| `StoreWrites.InsertStore` | Project/src/actions/admin_actions.py:64-94 | only the home shard's Stores and central can change; a missing connection or a failed shard INSERT (duplicate or failure) changes nothing; the write is partial exactly when the shard INSERT succeeds and the central INSERT fails (duplicate or failure), and then the shard has the row and central is unchanged; on completion the row is in both copies with identical values and no other row moved |
| `StoreWriteLemmas.InsertStoreCentralFailure` | Project/src/actions/admin_actions.py:80-94 | in a valid database, a failing central INSERT after a successful shard INSERT ends partial: the shard keeps the new row, central is unchanged, and the copies diverge |
| `StoreWrites.UpdateHours` | Project/src/actions/admin_actions.py:143-175 | a missing connection or a failed shard UPDATE changes nothing; otherwise the shard row keeps its address and takes the new hours, with the same keys and no other row moved; central gets the same change on completion and none on a partial write |
| `StoreWrites.DeleteStore` | Project/src/actions/admin_actions.py:184-216 | a missing connection or a failed shard DELETE changes nothing; otherwise exactly the key leaves the shard copy; it leaves central too on completion, and central stays as it was on a partial write |
| `StoreWriteLemmas.InsertStoreKeepsValid` | Project/src/actions/admin_actions.py:64-94 | from a valid database, every outcome of insert_store except a partial one leaves the database valid (copies equal, rows in their home shards) |
| `StoreWriteLemmas.InsertStorePartialDiverges` | Project/src/actions/admin_actions.py:80-94 | a partial insert in a valid database leaves the store in its shard and not in central, so the copies diverge |
| `StoreWriteLemmas.UpdateHoursKeepsValid` | Project/src/actions/admin_actions.py:155-175 | every outcome of update_hours except a partial one keeps the database valid |
| `StoreWriteLemmas.UpdateHoursPartialDiverges` | Project/src/actions/admin_actions.py:160-175 | a partial update that changes an existing store's hours leaves the new hours in the shard and the old ones in central |
| `StoreWriteLemmas.DeleteStoreKeepsValid` | Project/src/actions/admin_actions.py:196-216 | every outcome of delete_store except a partial one keeps the database valid |
| `StoreWriteLemmas.DeleteStorePartialDiverges` | Project/src/actions/admin_actions.py:201-216 | a partial delete of an existing store leaves it only in central |
| `ItemWrites.StockNewItem` | Project/src/actions/admin_actions.py:225-253 | only the home shard's item tables can change; the call is never partial; it completes exactly when connected, both statements go through and neither key exists; it then adds the Vendor row (name, quantity, price) and a Portal row with the same name and price and in_stock == (quantity > 0), and moves nothing else |
| `ItemWrites.RestockItem` | Project/src/actions/admin_actions.py:259-288 | only the quantity of the (item, store) Vendor row changes; on completion only its Portal in_stock changes, to quantity > 0; a partial restock leaves Portal as it was; other keys and fields are unchanged |
| `ItemWrites.PriceChange` | Project/src/actions/admin_actions.py:294-323 | only the price of the (item, store) row changes, in Vendor and then, on completion, in Portal, to the same value; a partial change leaves Portal as it was |
| `ItemWrites.RemoveItem` | Project/src/actions/admin_actions.py:329-356 | the key leaves Portal first and then, on completion, Vendor; a partial removal leaves Vendor as it was; nothing else moves |
| `ItemWriteLemmas.StockNewItemKeepsValid` | Project/src/actions/admin_actions.py:235-249 | every outcome of stock_new_item keeps the database valid, in particular in_stock == (quantity > 0) |
| `ItemWriteLemmas.RestockItemKeepsValid` | Project/src/actions/admin_actions.py:269-284 | every outcome of restock_item except a partial one keeps in_stock == (quantity > 0) and the rest of the invariant |
| `ItemWriteLemmas.PriceChangeKeepsValid` | Project/src/actions/admin_actions.py:304-319 | every outcome of price_change except a partial one keeps Vendor and Portal prices equal |
| `ItemWriteLemmas.RemoveItemKeepsValid` | Project/src/actions/admin_actions.py:339-352 | every outcome of remove_item except a partial one keeps Vendor and Portal on the same keys |
| `ItemWriteLemmas.RestockItemPartialStale` | Project/src/actions/admin_actions.py:269-284 | a partial restock that changes availability leaves Portal showing the old in_stock |
| `ItemWriteLemmas.PriceChangePartialStale` | Project/src/actions/admin_actions.py:304-319 | a partial price change leaves Vendor and Portal at different prices |
| `ItemWriteLemmas.RemoveItemPartialOrphans` | Project/src/actions/admin_actions.py:339-352 | a partial removal leaves the Vendor row with no Portal row |
| `ItemWriteLemmas.StockThenRestockToZero` | Project/src/actions/admin_actions.py:235-284 | stocking 5 units reads back quantity 5 and in stock; restocking to 0 reads back quantity 0 and out of stock |
| `Queries.ViewItems` | Project/src/actions/admin_actions.py:362-393 | no connection gives None, a failed query the empty list; every listed row is a Vendor row of that store in its home shard, projected to (code, name, quantity, price), that the filter keeps |
| `Queries.ListedIff` | Project/src/actions/admin_actions.py:372-386 | a Vendor row of the store is listed if and only if the filter keeps it |
| `Queries.UnfilteredListsAll` | Project/src/actions/admin_actions.py:372-378 | with neither filter entered (both absent or empty), every row of the store is listed |
| `Queries.FilteredIsDisjunction` | Project/src/actions/admin_actions.py:379-384 | with a filter entered, a row is listed if and only if its code equals the code filter OR its name equals the name filter; an absent filter matches nothing |
| `Queries.OrNotAnd` | Project/src/actions/admin_actions.py:380-384 | concrete case: code W1 with name Widget lists both the W1 row and the Widget row; name Widget alone lists only the Widget row |
| `Queries.GetStores` | Project/src/actions/admin_actions.py:103-132 | every listed record is a central store with its address; it carries the hours exactly when all columns were asked for; a failed query lists nothing |
| `Queries.StoreListed` | Project/src/actions/admin_actions.py:109-127 | every central store appears in a successful listing with the requested columns |
| `Runs.ApplyKeepsValid` | Project/src/actions/admin_actions.py:64-356 | every admin write that is not left partial keeps the database valid |
| `Runs.RunKeepsValid` | Project/src/actions/admin_actions.py:64-356 | from a valid database, any run of admin writes where no call ended partial ends valid: shard and central copies equal, rows in their home shards, in_stock == (quantity > 0) |
| `Runs.InsertedStoreIsListed` | Project/src/actions/admin_actions.py:64-127 | after a completed insert of store 42, get_stores lists it from central and shard 42 mod N holds the same row |
| `AdminActions.Cluster.constructor` | Project/src/actions/admin_actions.py:46-51 | a cluster of N empty shards and an empty central database, which is valid |
| `AdminActions.Cluster.InsertStore` | Project/src/actions/admin_actions.py:64-101 | the statement-by-statement insert: shard INSERT and commit, then central INSERT and commit; the resulting state and outcome are those of StoreWrites.InsertStore; validity is kept unless the write was partial |
| `AdminActions.Cluster.UpdateHours` | Project/src/actions/admin_actions.py:143-182 | shard UPDATE and commit, then central UPDATE and commit, as in StoreWrites.UpdateHours; validity is kept unless the write was partial |
| `AdminActions.Cluster.DeleteStore` | Project/src/actions/admin_actions.py:184-222 | shard DELETE and commit, then central DELETE and commit, as in StoreWrites.DeleteStore; validity is kept unless the write was partial |
| `AdminActions.Cluster.StockNewItem` | Project/src/actions/admin_actions.py:225-257 | both INSERTs before the one commit, as in ItemWrites.StockNewItem; validity is always kept |
| `AdminActions.Cluster.RestockItem` | Project/src/actions/admin_actions.py:259-292 | Vendor UPDATE and commit, then Portal UPDATE and commit, as in ItemWrites.RestockItem; validity is kept unless the write was partial |
| `AdminActions.Cluster.PriceChange` | Project/src/actions/admin_actions.py:294-327 | Vendor UPDATE and commit, then Portal UPDATE and commit, as in ItemWrites.PriceChange; validity is kept unless the write was partial |
| `AdminActions.Cluster.RemoveItem` | Project/src/actions/admin_actions.py:329-360 | Portal DELETE and commit, then Vendor DELETE and commit, as in ItemWrites.RemoveItem; validity is kept unless the write was partial |

## Left out

- Connections, cursors and `close()` are not modelled. `connect_to_database` is represented only by the `shardUp`/`centralUp` flags. Printed messages are not modelled either. These are driver plumbing.
- Loading `shard_connections` and `central_db_params` from `..database.config` is not part of this model. The shard count is the length of the shard sequence, and it is required to be positive. With zero shards the source divides by zero.
- A failing commit is folded into the failure of its statement.
- Uncommitted work is assumed to roll back when the connection closes without a commit. This is MySQL's behaviour with autocommit off, the driver's default. It is why a failed `stock_new_item` leaves nothing behind.
- When the shard statement of `insert_store` or `update_hours` fails, for any reason including a duplicate key on the shard INSERT, the source prints the error (admin_actions.py:94, :175) and then the `finally` block closes `central_cursor` before it is bound (:100, :181), which raises UnboundLocalError. The state effect is the same (`Failed`), and the exception is not modelled. `delete_store` does not close `central_cursor` and has no such crash.
- Queries.GetStores: when the connection fails, the source's `finally` raises on the unbound `cursor` instead of returning `[]`. The model returns the empty result.
- Queries.GetStores: the source queries `stores` in lower case, while every write goes to `Stores`. The model treats them as one table. They are the same table only where MySQL table names are case-insensitive.
- Queries.GetStores: results are sets, so the order `fetchall` returns the rows in is not modelled. Both projections keep `store_code`, the key of Stores, so no two rows merge.
- Queries.ViewItems: results are sets, so the order of rows is not modelled. The projection keeps the item code, so no two rows of one store merge.
- Queries.ViewItems: item codes are modelled as strings. Names and codes are compared by exact equality. Comparison under the column's collation (case, and depending on the collation, accents and trailing spaces) is not modelled.
- Quantities are not checked by the source, so the model accepts any integer. Any rule the database schema itself enforces on quantity or price is not part of this model.
- Prices are whole cents rather than decimals. Times of day are copied values (`TimeOfDay`) with no clock arithmetic.
- Concurrent callers are not modelled. The source takes no locks, and every call here is one atomic sequence of steps on one state.
