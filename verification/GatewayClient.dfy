/** One Gateway connection and the two tables that outlive it. */
module GatewayClient {
  import opened Options
  import opened Gateway

  /** The row of one agent's session: what a resume replays from. */
  class SessionStore {
    var row: Option<nat>

    constructor ()
      ensures row == None
    {
      row := None;
    }

    method Save(number: nat)
      modifies this
      ensures row == Some(number)
    {
      row := Some(number);
    }
  }

  class HandledTable {
    var ids: set<string>

    constructor ()
      ensures ids == {}
    {
      ids := {};
    }

    /** True the first time an id is seen; it is recorded either way. */
    method MarkHandled(id: string) returns (first: bool)
      modifies this
      ensures first == (id !in old(ids)) && ids == old(ids) + {id}
    {
      first := id !in ids;
      ids := ids + {id};
    }

    method Forget(id: string)
      modifies this
      ensures ids == old(ids) - {id}
    {
      ids := ids - {id};
    }
  }

  class GatewayConnection {
    const store: SessionStore
    const handled: HandledTable
    var last: nat
    var queue: seq<Dispatch>
    var stage: Stage

    ghost function View(): Connection
      reads this
    {
      Connection(last, queue, stage)
    }

    /** A connection that resumes. */
    constructor (store: SessionStore, handled: HandledTable)
      requires store.row.Some?
      ensures this.store == store && this.handled == handled
      ensures View() == Connection(store.row.value, [], Waiting)
    {
      this.store := store;
      this.handled := handled;
      last := store.row.value;
      queue := [];
      stage := Waiting;
    }

    method OnDispatchFrame(d: Dispatch)
      modifies this
      ensures View() == Enqueued(old(View()), d)
    {
      last := d.number;
      queue := queue + [d];
    }

    /** The chain reaches its next dispatch. */
    method HandlerStarts()
      requires queue != [] && stage == Waiting
      modifies this, handled
      ensures View() == Begun(old(View()), old(handled.ids))
      ensures handled.ids == old(handled.ids) + {queue[0].id}
    {
      var first := handled.MarkHandled(queue[0].id);
      stage := if first then Acting else Dropping;
    }

    /** The number is recorded only once the handler has returned; one that threw leaves it. */
    method HandlerSettles(ok: bool)
      requires queue != []
      modifies this, store
      ensures View() == Settled(old(View()))
      ensures store.row == if ok && old(store.row).Some? then Some(old(queue)[0].number) else old(store.row)
    {
      var d := queue[0];
      queue := queue[1..];
      stage := Waiting;
      if !ok {
        return;
      }
      if store.row.Some? && store.row.value != d.number {
        store.Save(d.number);
      }
    }

    /** RESUMED records the last number seen at once, whatever is still queued. */
    method OnResumed(number: Option<nat>)
      modifies this, store
      ensures View() == old(View()).(last := number.GetOr(old(last)))
      ensures store.row == if old(store.row).Some? then Some(last) else None
    {
      if number.Some? {
        last := number.value;
      }
      if store.row.Some? && store.row.value != last {
        store.Save(last);
      }
    }
  }
}
