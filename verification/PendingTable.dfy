/** The table of in-flight requests, as one goroutine at a time sees it: subscriber/request.go.
    RequestProtocol.dfy interleaves the same steps. */
module PendingTable {
  import opened Decimal
  import opened Wrappers

  datatype Response = Response(id: string, data: string, error: string)

  /** A non-blocking send on a channel that holds one message: only the first gets in. */
  function Put<T>(slot: Option<T>, x: T): Option<T> {
    if slot.None? then Some(x) else slot
  }

  function ConnectionClosed(id: string): Response {
    Response(id, "", "connection closed")
  }

  /** The channel on which one caller waits. */
  class ReplySlot {
    var content: Option<Response>

    constructor ()
      ensures content == None
    {
      content := None;
    }

    method TrySend(r: Response)
      modifies this
      ensures content == Put(old(content), r)
    {
      if content.None? {
        content := Some(r);
      }
    }
  }

  class Table {
    ghost var begun: nat
    var nextId: int
    var pending: map<string, ReplySlot>

    /** No two ids share a channel. */
    ghost predicate Valid()
      reads this
    {
      && nextId == Counter(begun)
      && forall i, j | i in pending && j in pending && i != j :: pending[i] != pending[j]
    }

    constructor ()
      ensures Valid() && begun == 0 && pending == map[]
    {
      begun, nextId, pending := 0, 0, map[];
    }

    /** The next id is taken and its channel registered; nothing else in the table changes. */
    method Register() returns (id: string, slot: ReplySlot)
      requires Valid()
      modifies this
      ensures Valid() && begun == old(begun) + 1
      ensures id == RequestId(old(begun))
      ensures fresh(slot) && slot.content == None
      ensures pending == old(pending)[id := slot]
    {
      nextId := Increment(nextId);
      begun := begun + 1;
      id := FormatInt(nextId);
      slot := new ReplySlot();
      pending := pending[id := slot];
    }

    method Deregister(id: string)
      requires Valid()
      modifies this`pending
      ensures Valid() && pending == old(pending) - {id}
    {
      pending := pending - {id};
    }

    /** A reply reaches the channel registered under its own id and no other; an unknown id reaches
        none; a second reply is dropped. */
    method RouteResponse(r: Response)
      requires Valid()
      modifies pending.Values
      ensures forall id | id in pending ::
        pending[id].content == if id == r.id then Put(old(pending[id].content), r) else old(pending[id].content)
    {
      if r.id in pending {
        pending[r.id].TrySend(r);
      }
    }

    /** Every registered channel that is still empty gets the failure under its own id, and the
        table is emptied. */
    method FailAllPending()
      requires Valid()
      modifies this`pending, pending.Values
      ensures Valid() && pending == map[]
      ensures forall id | id in old(pending) ::
        old(pending)[id].content == Put(old(pending[id].content), ConnectionClosed(id))
      ensures forall id | id in old(pending) && old(pending[id].content) == None ::
        var content := old(pending)[id].content;
        content.Some? && content.value.id == id && content.value.error != "" && content.value.data == ""
    {
      var todo := pending.Keys;
      while todo != {}
        invariant todo <= pending.Keys && pending == old(pending) && Valid()
        invariant forall id | id in todo :: pending[id].content == old(pending[id].content)
        invariant forall id | id in pending.Keys - todo ::
          pending[id].content == Put(old(pending[id].content), ConnectionClosed(id))
      {
        var id :| id in todo;
        pending[id].TrySend(ConnectionClosed(id));
        todo := todo - {id};
      }
      pending := map[];
    }
  }
}
