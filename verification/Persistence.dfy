/**
 The database and the unit of work. A session stages rows; only `Commit` publishes them, as a new
 version of the database: the rows the session changed or added over whatever is committed by then.
 Rollback and closing without commit discard what was staged.
 */
module Persistence {
  import opened Wrappers
  import opened Entities
  import opened Transitions
  import Outbox

  class Database {
    /** Every store that was ever committed, the current one last. */
    var versions: seq<Store>
    /** Outbox rows locked by open transactions. */
    var locked: set<nat>

    constructor ()
      ensures versions == [EMPTY] && locked == {}
    {
      versions := [EMPTY];
      locked := {};
    }

    predicate Valid()
      reads this
    {
      |versions| > 0
    }

    function Current(): Store
      requires Valid()
      reads this
    {
      versions[|versions| - 1]
    }
  }

  /** The entries of a table that a transaction changed or added. */
  function Written<T(==)>(base: map<string, T>, staged: map<string, T>): map<string, T> {
    map id | id in staged && (id !in base || staged[id] != base[id]) :: staged[id]
  }

  /** The same for the outbox: changed rows replace those at their position, added ones come last. */
  function OverwriteRows(base: seq<OutboxRow>, staged: seq<OutboxRow>, current: seq<OutboxRow>): seq<OutboxRow>
    requires |base| <= |staged|
  {
    seq(|current|, i requires 0 <= i < |current| =>
      if i < |base| && staged[i] != base[i] then staged[i] else current[i])
      + staged[|base|..]
  }

  /** A transaction adds and changes rows and never deletes one. */
  predicate Extends(base: Store, staged: Store) {
    base.orders.Keys <= staged.orders.Keys && base.inbox.Keys <= staged.inbox.Keys && |base.outbox| <= |staged.outbox|
  }

  /** What a transaction that started from `base` and staged `staged` leaves of the store it commits to. */
  function Merge(base: Store, staged: Store, current: Store): Store
    requires Extends(base, staged)
  {
    Store(
      current.orders + Written(base.orders, staged.orders),
      OverwriteRows(base.outbox, staged.outbox, current.outbox),
      current.inbox + Written(base.inbox, staged.inbox))
  }

  /** When nothing else was committed, a commit publishes exactly what was staged. */
  lemma {:induction false} MergeAlone(base: Store, staged: Store)
    requires Extends(base, staged)
    ensures Merge(base, staged, base) == staged
  {
    assert base.orders + Written(base.orders, staged.orders) == staged.orders;
    assert base.inbox + Written(base.inbox, staged.inbox) == staged.inbox;
    assert OverwriteRows(base.outbox, staged.outbox, base.outbox) == staged.outbox;
  }

  class Session {
    /** The store the transaction started from. */
    var base: Store
    var rows: Store
    var held: set<nat>

    constructor (rows: Store)
      ensures base == this.rows == rows && held == {}
    {
      base, this.rows := rows, rows;
      held := {};
    }
  }

  class OrderRepository {
    const session: Session

    constructor (session: Session)
      ensures this.session == session
    {
      this.session := session;
    }

    /** None stands for the IntegrityError raised by flush. */
    method Add(order: OrderRow) returns (saved: Option<OrderRow>)
      modifies session`rows
      ensures saved.Some? <==>
        order.id !in old(session.rows).orders && !KeyTaken(old(session.rows).orders, order.idempotencyKey)
      ensures saved.Some? ==> saved.value == order && session.rows == Save(old(session.rows), order)
      ensures saved.None? ==> session.rows == old(session.rows)
    {
      if order.id in session.rows.orders || KeyTaken(session.rows.orders, order.idempotencyKey) {
        return None;
      }
      session.rows := session.rows.(orders := session.rows.orders[order.id := order]);
      saved := Some(order);
    }

    method GetById(id: string) returns (order: Order?)
      ensures order == null <==> id !in session.rows.orders
      ensures order != null ==> fresh(order) && order.Row() == session.rows.orders[id]
    {
      if id !in session.rows.orders {
        return null;
      }
      order := new Order(session.rows.orders[id]);
    }

    method GetByIdempotencyKey(key: string) returns (order: Order?)
      ensures order == null <==> !KeyTaken(session.rows.orders, key)
      ensures order != null ==>
        && fresh(order)
        && order.idempotencyKey == key
        && exists id :: id in session.rows.orders && session.rows.orders[id] == order.Row()
    {
      if !KeyTaken(session.rows.orders, key) {
        return null;
      }
      var id :| id in session.rows.orders && session.rows.orders[id].idempotencyKey == key;
      order := new Order(session.rows.orders[id]);
      assert session.rows.orders[id] == order.Row();
    }

    /** None stands for the ValueError of an order that is not there. */
    method Update(order: Order) returns (updated: Option<OrderRow>)
      modifies session`rows
      ensures updated.Some? <==> order.id in old(session.rows).orders
      ensures updated.Some? ==> updated.value == order.Row() && session.rows == Save(old(session.rows), order.Row())
      ensures updated.None? ==> session.rows == old(session.rows)
    {
      if order.id !in session.rows.orders {
        return None;
      }
      session.rows := session.rows.(orders := session.rows.orders[order.id := order.Row()]);
      updated := Some(order.Row());
    }
  }

  class OutboxRepository {
    const session: Session

    constructor (session: Session)
      ensures this.session == session
    {
      this.session := session;
    }

    method Add(event: OutboxEvent)
      modifies session`rows
      ensures session.rows == Enqueue(old(session.rows), event)
    {
      session.rows := session.rows.(outbox := session.rows.outbox + [OutboxRow(event, Pending, 0, None)]);
    }

    /** `FOR UPDATE SKIP LOCKED`: the selected rows stay locked until the session ends. */
    method GetPendingForUpdate(db: Database, limit: nat) returns (ids: seq<nat>)
      modifies db`locked, session`held
      ensures ids == Outbox.Select(session.rows.outbox, old(db.locked), limit)
      ensures db.locked == old(db.locked) + (set id | id in ids)
      ensures session.held == old(session.held) + (set id | id in ids)
    {
      ids := Outbox.Select(session.rows.outbox, db.locked, limit);
      db.locked := db.locked + (set id | id in ids);
      session.held := session.held + (set id | id in ids);
    }

    /** False stands for the ValueError of a row that is not there. */
    method MarkAsSent(id: nat) returns (found: bool)
      modifies session`rows
      ensures found == (id < |old(session.rows).outbox|)
      ensures session.rows == if !found then old(session.rows)
        else old(session.rows).(outbox := old(session.rows).outbox[id := Outbox.MarkSent(old(session.rows).outbox[id])])
    {
      found := id < |session.rows.outbox|;
      if found {
        var row := session.rows.outbox[id];
        row := row.(status := Sent);
        session.rows := session.rows.(outbox := session.rows.outbox[id := row]);
      }
    }

    method MarkAsFailed(id: nat, error: string, maxRetries: nat) returns (found: bool)
      modifies session`rows
      ensures found == (id < |old(session.rows).outbox|)
      ensures session.rows == if !found then old(session.rows)
        else old(session.rows).(
          outbox := old(session.rows).outbox[id := Outbox.MarkFailed(old(session.rows).outbox[id], error, maxRetries)])
    {
      found := id < |session.rows.outbox|;
      if found {
        var row := session.rows.outbox[id];
        row := row.(retryCount := row.retryCount + 1);
        row := row.(lastError := Some(if |error| > 2000 then error[..2000] else error));
        if row.retryCount >= maxRetries {
          row := row.(status := Failed);
        }
        session.rows := session.rows.(outbox := session.rows.outbox[id := row]);
      }
    }
  }

  class InboxRepository {
    const session: Session

    constructor (session: Session)
      ensures this.session == session
    {
      this.session := session;
    }

    /** `ON CONFLICT (event_id) DO NOTHING`: false when the id is already there. */
    method Add(eventId: string, row: InboxRow) returns (inserted: bool)
      modifies session`rows
      ensures inserted == (eventId !in old(session.rows).inbox)
      ensures session.rows == if !inserted then old(session.rows)
        else old(session.rows).(inbox := old(session.rows).inbox[eventId := row])
    {
      inserted := eventId !in session.rows.inbox;
      if inserted {
        session.rows := session.rows.(inbox := session.rows.inbox[eventId := row]);
      }
    }
  }

  class UnitOfWork {
    const db: Database
    var session: Session?
    var orders: OrderRepository?
    var outbox: OutboxRepository?
    var inbox: InboxRepository?

    constructor (db: Database)
      ensures this.db == db && session == null
    {
      this.db := db;
      session, orders, outbox, inbox := null, null, null, null;
    }

    predicate Open()
      reads this
    {
      && session != null && orders != null && outbox != null && inbox != null
      && orders.session == session && outbox.session == session && inbox.session == session
    }

    method Enter()
      requires db.Valid() && session == null
      modifies this
      ensures Open() && fresh(session)
      ensures session.base == session.rows == db.Current() && session.held == {}
    {
      session := new Session(db.Current());
      orders := new OrderRepository(session);
      outbox := new OutboxRepository(session);
      inbox := new InboxRepository(session);
    }

    /** The rows written go over what is committed by now; if that is what the session started from, they are all. */
    method Commit()
      requires db.Valid() && Open() && Extends(session.base, session.rows)
      modifies db, session
      ensures db.versions == old(db.versions) + [old(Merge(session.base, session.rows, db.Current()))]
      ensures old(session.base == db.Current()) ==> db.Current() == old(session.rows)
      ensures session.base == session.rows == db.Current()
      ensures db.locked == old(db.locked - session.held) && session.held == {}
    {
      MergeAlone(session.base, session.rows);
      session.rows := Merge(session.base, session.rows, db.Current());
      session.base := session.rows;
      db.versions := db.versions + [session.rows];
      db.locked := db.locked - session.held;
      session.held := {};
    }

    method Rollback()
      requires db.Valid() && Open()
      modifies db`locked, session
      ensures session.base == session.rows == db.Current()
      ensures db.locked == old(db.locked - session.held) && session.held == {}
    {
      session.base, session.rows := db.Current(), db.Current();
      db.locked := db.locked - session.held;
      session.held := {};
    }

    /** Leaving the block: rolled back when an exception passes through, closed in any case. */
    method Exit(raised: bool)
      requires db.Valid() && Open()
      modifies this`session, db`locked, session
      ensures session == null
      ensures db.locked == old(db.locked - session.held)
    {
      if raised {
        Rollback();
      }
      db.locked := db.locked - session.held;
      session.held := {};
      session := null;
    }
  }
}
