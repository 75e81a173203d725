/** The browser client's table of promises: examples/browser/klever-subscriber.js. Everything runs on
    one event loop, so each handler runs to its end before the next starts. */
module BrowserClient {
  import opened Decimal
  import opened Wrappers

  /** Why a promise was settled; `Closed` names the socket whose close it was. */
  datatype Cause = Replied(data: string) | ServerError(error: string) | TimedOut | Closed(socket: nat) | NotConnected

  /** A frame from the node; an absent or empty field is an empty string. */
  datatype Message = Malformed | Message(id: string, error: string, kind: string, data: string)

  datatype Emission = EmitError(error: string) | EmitEvent(message: Message)

  datatype Body =
    | Call(name: string, params: string)
    | Removal(types: seq<string>, addresses: seq<string>)

  /** A request as it went out, and the socket it was sent on. */
  datatype Frame = Frame(socket: nat, id: string, body: Body)

  /** Promises are numbered in the order in which they are made; `settled[p]` holds every cause that
      ever settled promise `p`, and `armed` the ids of requests whose timer is running. */
  datatype Client = Client(
    pending: map<string, nat>,
    armed: set<string>,
    nextId: nat,
    socket: Option<nat>,
    open: set<nat>,
    settled: seq<seq<Cause>>,
    sent: seq<Frame>,
    emitted: seq<Emission>)

  const FRESH := Client(map[], {}, 0, None, {}, [], [], [])

  /** Up to here a JavaScript number counts without skipping. */
  const MAX_COUNT: nat := 0x20_0000_0000_0000

  predicate IsOpen(c: Client) {
    c.socket.Some? && c.socket.value in c.open
  }

  /** Some pending request will settle promise `p`. */
  predicate Awaited(pending: map<string, nat>, p: nat) {
    exists id :: id in pending && pending[id] == p
  }

  function Settle(settled: seq<seq<Cause>>, p: nat, cause: Cause): seq<seq<Cause>> {
    if p < |settled| then settled[p := settled[p] + [cause]] else settled
  }

  ghost predicate OnePerPromise(pending: map<string, nat>) {
    forall i, j | i in pending && j in pending && i != j :: pending[i] != pending[j]
  }

  /** Every promise awaited in `pending` is rejected. */
  function Rejected(settled: seq<seq<Cause>>, pending: map<string, nat>, cause: Cause): seq<seq<Cause>> {
    seq(|settled|, p requires 0 <= p < |settled| =>
      if Awaited(pending, p) then settled[p] + [cause] else settled[p])
  }

  // ----- What each handler does, as a function -----

  /** `request`: makes promise number `|c.settled|`. */
  function Requested(c: Client, body: Body): Client {
    if !IsOpen(c) then c.(settled := c.settled + [[NotConnected]])
    else
      var id := FormatInt(c.nextId + 1);
      c.(nextId := c.nextId + 1, armed := c.armed + {id}, pending := c.pending[id := |c.settled|],
         settled := c.settled + [[]], sent := c.sent + [Frame(c.socket.value, id, body)])
  }

  /** `unsubscribe`: the addresses and the types go in requests of their own. */
  function Unsubscribed(c: Client, types: seq<string>, addresses: seq<string>): Client {
    var d := if addresses != [] then Requested(c, Removal([], addresses)) else c;
    if types != [] then Requested(d, Removal(types, [])) else d
  }

  function TimerFired(c: Client, id: string): Client {
    var d := c.(armed := c.armed - {id});
    if id !in c.pending then d
    else d.(pending := c.pending - {id}, settled := Settle(c.settled, c.pending[id], TimedOut))
  }

  function MessageReceived(c: Client, m: Message): Client {
    if m.Malformed? then c
    else if m.id != "" && m.id in c.pending then
      c.(pending := c.pending - {m.id}, armed := c.armed - {m.id},
         settled := Settle(c.settled, c.pending[m.id],
                           if m.error != "" then ServerError(m.error) else Replied(m.data)))
    else if m.error != "" && m.kind == "" then c.(emitted := c.emitted + [EmitError(m.error)])
    else if m.kind != "" then c.(emitted := c.emitted + [EmitEvent(m)])
    else c
  }

  /** Every pending promise is rejected, and the table and the timers are cleared. */
  function PendingFailed(c: Client, cause: Cause): Client {
    c.(pending := map[], armed := c.armed - c.pending.Keys, settled := Rejected(c.settled, c.pending, cause))
  }

  /** The close handler of socket `s`, which asks for no more than that some socket has closed. */
  function SocketLost(c: Client, s: nat): Client {
    PendingFailed(c, Closed(s)).(socket := None, open := c.open - {s})
  }

  /** The entries of the table that a loop over it has come to. */
  ghost function Visited(pending: map<string, nat>, todo: set<string>): map<string, nat> {
    map id | id in pending && id !in todo :: pending[id]
  }

  lemma VisitOne(
    settled: seq<seq<Cause>>, pending: map<string, nat>, todo: set<string>, id: string, cause: Cause)
    requires id in todo && id in pending
    requires OnePerPromise(pending)
    ensures Rejected(settled, Visited(pending, todo - {id}), cause)
         == Settle(Rejected(settled, Visited(pending, todo), cause), pending[id], cause)
  {
    var before, after := Visited(pending, todo), Visited(pending, todo - {id});
    forall p: nat ensures Awaited(after, p) <==> Awaited(before, p) || p == pending[id] {
      if Awaited(before, p) {
        var j :| j in before && before[j] == p;
        assert after[j] == p;
      }
      if p == pending[id] {
        assert after[id] == p;
      } else if Awaited(after, p) {
        var j :| j in after && after[j] == p;
        assert before[j] == p;
      }
    }
  }

  // ----- Exactly once -----

  /** The table holds exactly the promises that are not settled, each under its own id, with exactly
      the running timers; nothing is settled twice. */
  ghost predicate Inv(c: Client) {
    && c.armed == c.pending.Keys
    && OnePerPromise(c.pending)
    && (forall id | id in c.pending :: c.pending[id] < |c.settled|)
    && (forall p | 0 <= p < |c.settled| :: |c.settled[p]| <= 1 && (c.settled[p] == [] <==> Awaited(c.pending, p)))
    && (forall id | id in c.pending :: Issued(id, c.nextId))
  }

  ghost predicate Issued(id: string, nextId: nat) {
    exists k: nat :: 1 <= k <= nextId && FormatInt(k) == id
  }

  lemma RequestedInv(c: Client, body: Body)
    requires Inv(c)
    ensures Inv(Requested(c, body))
  {
    var d := Requested(c, body);
    if IsOpen(c) {
      var n, id := c.nextId + 1, FormatInt(c.nextId + 1);
      assert id !in c.pending by {
        if id in c.pending {
          var k: nat :| 1 <= k <= c.nextId && FormatInt(k) == id;
          FormatIntInjective(k, n);
        }
      }
      assert d.pending[id] == |c.settled|;
      forall p | 0 <= p < |c.settled| ensures Awaited(d.pending, p) <==> Awaited(c.pending, p) {
        if Awaited(c.pending, p) {
          var j :| j in c.pending && c.pending[j] == p;
          assert d.pending[j] == p;
        }
      }
      forall j | j in d.pending ensures Issued(j, d.nextId) {
        if j == id {
          assert FormatInt(n) == j;
        } else {
          assert Issued(j, c.nextId);
        }
      }
    } else {
      forall p | 0 <= p < |d.settled| ensures d.settled[p] == [] <==> Awaited(d.pending, p) {
      }
    }
  }

  /** Taking one id out of the table and settling its promise keeps the two in step. */
  lemma SettledInv(c: Client, id: string, cause: Cause)
    requires Inv(c) && id in c.pending
    ensures Inv(c.(pending := c.pending - {id}, armed := c.armed - {id},
                   settled := Settle(c.settled, c.pending[id], cause)))
  {
    var pending := c.pending - {id};
    forall p | 0 <= p < |c.settled| ensures Awaited(pending, p) <==> Awaited(c.pending, p) && p != c.pending[id] {
      if Awaited(c.pending, p) && p != c.pending[id] {
        var j :| j in c.pending && c.pending[j] == p;
        assert pending[j] == p;
      }
    }
  }

  lemma TimerFiredInv(c: Client, id: string)
    requires Inv(c)
    ensures Inv(TimerFired(c, id))
  {
    if id in c.pending {
      SettledInv(c, id, TimedOut);
    } else {
      assert TimerFired(c, id) == c;
    }
  }

  lemma MessageReceivedInv(c: Client, m: Message)
    requires Inv(c)
    ensures Inv(MessageReceived(c, m))
  {
    if m.Message? && m.id != "" && m.id in c.pending {
      SettledInv(c, m.id, if m.error != "" then ServerError(m.error) else Replied(m.data));
    }
  }

  lemma PendingFailedInv(c: Client, cause: Cause)
    requires Inv(c)
    ensures Inv(PendingFailed(c, cause))
  {
  }

  // ----- The client -----

  class KleverSubscriber {
    var pending: map<string, nat>
    var armed: set<string>
    var nextId: nat
    var socket: Option<nat>
    var open: set<nat>
    var settled: seq<seq<Cause>>
    var sent: seq<Frame>
    var emitted: seq<Emission>

    constructor ()
      ensures View() == FRESH && Inv(View())
    {
      pending, armed, nextId, socket, open := map[], {}, 0, None, {};
      settled, sent, emitted := [], [], [];
    }

    ghost function View(): Client
      reads this
    {
      Client(pending, armed, nextId, socket, open, settled, sent, emitted)
    }

    method Request(body: Body) returns (promise: nat)
      requires Inv(View())
      modifies this
      ensures Inv(View())
      ensures View() == Requested(old(View()), body) && promise == |old(settled)|
    {
      ghost var c := View();
      RequestedInv(c, body);
      promise := |settled|;
      if !(socket.Some? && socket.value in open) {
        settled := settled + [[NotConnected]];
        return;
      }
      nextId := nextId + 1;
      var id := FormatInt(nextId);
      armed := armed + {id};
      settled := settled + [[]];
      pending := pending[id := promise];
      sent := sent + [Frame(socket.value, id, body)];
      assert View() == Requested(c, body);
    }

    /** The timer of request `id` goes off. */
    method OnTimer(id: string)
      requires Inv(View())
      modifies this
      ensures Inv(View())
      ensures View() == TimerFired(old(View()), id)
    {
      TimerFiredInv(View(), id);
      armed := armed - {id};
      if id in pending {
        var p := pending[id];
        pending := pending - {id};
        settled := Settle(settled, p, TimedOut);
      }
    }

    method OnMessage(m: Message)
      requires Inv(View())
      modifies this
      ensures Inv(View())
      ensures View() == MessageReceived(old(View()), m)
    {
      MessageReceivedInv(View(), m);
      if m.Malformed? {
        return;
      }
      if m.id != "" && m.id in pending {
        var p := pending[m.id];
        pending := pending - {m.id};
        armed := armed - {m.id};
        settled := Settle(settled, p, if m.error != "" then ServerError(m.error) else Replied(m.data));
        return;
      }
      if m.error != "" && m.kind == "" {
        emitted := emitted + [EmitError(m.error)];
        return;
      }
      if m.kind != "" {
        emitted := emitted + [EmitEvent(m)];
      }
    }

    method FailPending(cause: Cause)
      requires Inv(View())
      modifies this
      ensures Inv(View())
      ensures View() == PendingFailed(old(View()), cause)
    {
      ghost var c := View();
      PendingFailedInv(c, cause);
      var todo := pending.Keys;
      while todo != {}
        invariant todo <= pending.Keys
        invariant View() == c.(armed := armed, settled := settled)
        invariant armed == c.armed - (pending.Keys - todo)
        invariant settled == Rejected(c.settled, Visited(pending, todo), cause)
      {
        var id :| id in todo;
        var p := pending[id];
        VisitOne(c.settled, pending, todo, id, cause);
        armed := armed - {id};
        settled := Settle(settled, p, cause);
        todo := todo - {id};
      }
      assert Visited(pending, {}) == pending;
      pending := map[];
      assert View() == PendingFailed(c, cause);
    }

    /** Socket `s`, the current one or one replaced, has closed. */
    method OnClose(s: nat)
      requires Inv(View())
      modifies this
      ensures Inv(View())
      ensures View() == SocketLost(old(View()), s)
    {
      open := open - {s};
      FailPending(Closed(s));
      socket := None;
    }

    /** One request for the addresses, one for the types; with nothing to remove, an immediate
        rejection and no request. The promises come in that order. */
    method Unsubscribe(types: seq<string>, addresses: seq<string>) returns (ok: bool, promises: seq<nat>)
      requires Inv(View())
      modifies this
      ensures Inv(View())
      ensures View() == Unsubscribed(old(View()), types, addresses)
      ensures ok <==> types != [] || addresses != []
      ensures promises == (if addresses != [] then [|old(settled)|] else [])
        + (if types != [] then [|old(settled)| + if addresses != [] then 1 else 0] else [])
    {
      promises := [];
      if |types| == 0 && |addresses| == 0 {
        return false, [];
      }
      ok := true;
      if |addresses| > 0 {
        var p := Request(Removal([], addresses));
        promises := promises + [p];
      }
      if |types| > 0 {
        var p := Request(Removal(types, []));
        promises := promises + [p];
      }
    }
  }

  // ----- The event loop -----

  /** What can happen on the event loop. A new connection replaces the client's socket; the close
      handler of any socket, also of one replaced, fails everything pending. */
  datatype Event =
    | Request(body: Body)
    | Timer(id: string)
    | Receive(message: Message)
    | Connect(socket: nat)
    | Opened(socket: nat)
    | Closing(socket: nat)
    | Lost(socket: nat)

  predicate Enabled(c: Client, e: Event) {
    match e
    case Request(body) => c.nextId < MAX_COUNT
    case Timer(id) => id in c.armed
    case _ => true
  }

  function Next(c: Client, e: Event): Client
    requires Enabled(c, e)
  {
    match e
    case Request(body) => Requested(c, body)
    case Timer(id) => TimerFired(c, id)
    case Receive(m) => MessageReceived(c, m)
    case Connect(s) => c.(socket := Some(s))
    case Opened(s) => c.(open := c.open + {s})
    case Closing(s) => c.(open := c.open - {s})
    case Lost(s) => SocketLost(c, s)
  }

  lemma NextInv(c: Client, e: Event)
    requires Inv(c) && Enabled(c, e)
    ensures Inv(Next(c, e))
  {
    match e
    case Request(body) => RequestedInv(c, body);
    case Timer(id) => TimerFiredInv(c, id);
    case Receive(m) => MessageReceivedInv(c, m);
    case Lost(s) => PendingFailedInv(c, Closed(s));
    case _ =>
  }

  ghost predicate Run(states: seq<Client>, events: seq<Event>) {
    && |states| == |events| + 1
    && states[0] == FRESH
    && forall i | 0 <= i < |events| :: Enabled(states[i], events[i]) && states[i + 1] == Next(states[i], events[i])
  }

  lemma {:induction false} RunInv(states: seq<Client>, events: seq<Event>, i: nat)
    requires Run(states, events) && i < |states|
    ensures Inv(states[i])
    decreases i
  {
    if i == 0 {
    } else {
      RunInv(states, events, i - 1);
      NextInv(states[i - 1], events[i - 1]);
    }
  }

  /** At every point of every run: no promise has been settled twice; one that has not been settled
      is in the table under an id whose timer is running; and those are all the timers there are. */
  lemma SettledAtMostOnce(states: seq<Client>, events: seq<Event>, i: nat, p: nat)
    requires Run(states, events) && i < |states| && p < |states[i].settled|
    ensures |states[i].settled[p]| <= 1
    ensures states[i].settled[p] == [] <==>
      exists id :: id in states[i].pending && id in states[i].armed && states[i].pending[id] == p
    ensures states[i].armed == states[i].pending.Keys
  {
    RunInv(states, events, i);
    if states[i].settled[p] == [] {
      var id :| id in states[i].pending && states[i].pending[id] == p;
      assert id in states[i].armed;
    }
  }

  /** When a socket closes, every promise made so far has been settled, each exactly once, and no
      timer is left running. */
  lemma CloseSettlesAll(states: seq<Client>, events: seq<Event>, i: nat, p: nat)
    requires Run(states, events) && i < |events| && events[i].Lost? && p < |states[i].settled|
    ensures p < |states[i + 1].settled| && |states[i + 1].settled[p]| == 1
    ensures states[i + 1].pending == map[] && states[i + 1].armed == {}
  {
    RunInv(states, events, i);
    RunInv(states, events, i + 1);
  }

  lemma SettledStays(c: Client, e: Event, p: nat)
    requires Inv(c) && Enabled(c, e) && p < |c.settled| && c.settled[p] != []
    ensures p < |Next(c, e).settled| && Next(c, e).settled[p] == c.settled[p]
  {
    assert !Awaited(c.pending, p);
  }

  /** What has settled a promise stays what settled it: a late reply, timer or close changes nothing. */
  lemma {:induction false} SettledForGood(states: seq<Client>, events: seq<Event>, i: nat, j: nat, p: nat)
    requires Run(states, events) && i <= j < |states|
    requires p < |states[i].settled| && states[i].settled[p] != []
    ensures p < |states[j].settled| && states[j].settled[p] == states[i].settled[p]
    decreases j - i
  {
    if i == j {
    } else {
      SettledForGood(states, events, i, j - 1, p);
      RunInv(states, events, j - 1);
      SettledStays(states[j - 1], events[j - 1], p);
    }
  }

  /** A reply settles the promise of the request that carried its id. */
  lemma ReplySettlesItsRequest(c: Client, m: Message)
    requires Inv(c) && m.Message? && m.id != "" && m.id in c.pending
    ensures Next(c, Receive(m)).settled[c.pending[m.id]] ==
      [if m.error != "" then ServerError(m.error) else Replied(m.data)]
    ensures forall p | 0 <= p < |c.settled| && p != c.pending[m.id] ::
      Next(c, Receive(m)).settled[p] == c.settled[p]
  {
    assert Awaited(c.pending, c.pending[m.id]);
  }

  /** The close handler does not look which socket has closed. While the client is connected, the close
      of any socket rejects everything pending and leaves the client without a socket; and the socket
      it had is still open, with nobody to use or close it, exactly if another one has closed. */
  lemma StaleCloseDisconnectsIff(c: Client, s: nat)
    requires Inv(c) && IsOpen(c)
    ensures var d := Next(c, Lost(s));
      && d.socket.None? && !IsOpen(d)
      && (forall id | id in c.pending :: d.settled[c.pending[id]] == [Closed(s)])
      && (c.socket.value in d.open <==> s != c.socket.value)
  {
    forall id | id in c.pending ensures Next(c, Lost(s)).settled[c.pending[id]] == [Closed(s)] {
      assert Awaited(c.pending, c.pending[id]);
    }
  }

  /** Socket `s` closes while promise `p` is pending. */
  ghost predicate ClosesOver(states: seq<Client>, events: seq<Event>, k: nat, s: nat, p: nat) {
    k < |events| && k < |states| && events[k] == Lost(s) && p < |states[k].settled| && states[k].settled[p] == []
  }

  /** Only a close rejects a pending promise as closed, and it names its own socket. */
  lemma ClosedOnlyByLost(c: Client, e: Event, p: nat, s: nat)
    requires Inv(c) && Enabled(c, e) && p < |c.settled| && c.settled[p] == []
    ensures p < |Next(c, e).settled| && (Next(c, e).settled[p] == [Closed(s)] <==> e == Lost(s))
  {
    assert Awaited(c.pending, p);
    var after := Next(c, e).settled[p];
    assert after == [] || (|after| == 1 && if e.Lost? then after[0] == Closed(e.socket) else !after[0].Closed?);
    assert after == [Closed(s)] ==> after[0] == Closed(s);
  }

  /** The promise of a request is rejected by the close of socket `s` exactly if that socket closes while
      the promise is pending. */
  lemma {:induction false} ClosedByIff(states: seq<Client>, events: seq<Event>, r: nat, i: nat, s: nat)
    requires Run(states, events) && r < i < |states| && events[r].Request? && IsOpen(states[r])
    ensures var p := |states[r].settled|;
      && p < |states[i].settled|
      && (states[i].settled[p] == [Closed(s)] <==> exists k :: r < k < i && ClosesOver(states, events, k, s, p))
    decreases i
  {
    var p, c := |states[r].settled|, states[i - 1];
    if i == r + 1 {
      assert states[i].settled[p] == [];
    } else {
      ClosedByIff(states, events, r, i - 1, s);
      RunInv(states, events, i - 1);
      if c.settled[p] == [] {
        ClosedOnlyByLost(c, events[i - 1], p, s);
        assert ClosesOver(states, events, i - 1, s, p) <==> events[i - 1] == Lost(s);
      } else {
        SettledStays(c, events[i - 1], p);
      }
    }
  }

  /** The socket that carries the request made at step `r`: its frame is the next one sent. */
  function Carrier(states: seq<Client>, r: nat): nat
    requires r + 1 < |states| && |states[r].sent| < |states[r + 1].sent|
  {
    states[r + 1].sent[|states[r].sent|].socket
  }

  lemma RequestIsSent(states: seq<Client>, events: seq<Event>, r: nat)
    requires Run(states, events) && r < |events| && events[r].Request? && IsOpen(states[r])
    ensures |states[r + 1].sent| == |states[r].sent| + 1 && Carrier(states, r) == states[r].socket.value
  {
    assert states[r + 1] == Requested(states[r], events[r].body);
  }

  /** A request is failed by a connection it was not sent on exactly if some other socket than the one
      that carries it closes while its promise is pending. */
  lemma WronglyClosedIff(states: seq<Client>, events: seq<Event>, r: nat, i: nat)
    requires Run(states, events) && r < i < |states| && events[r].Request? && IsOpen(states[r])
    ensures |states[r].sent| < |states[r + 1].sent| && |states[r].settled| < |states[i].settled|
    ensures var p, own := |states[r].settled|, Carrier(states, r);
      (exists s :: s != own && states[i].settled[p] == [Closed(s)]) <==>
      (exists k, s :: r < k < i && s != own && ClosesOver(states, events, k, s, p))
  {
    RequestIsSent(states, events, r);
    ClosedByIff(states, events, r, i, 0);
    var p, own := |states[r].settled|, Carrier(states, r);
    if s :| s != own && states[i].settled[p] == [Closed(s)] {
      ClosedByIff(states, events, r, i, s);
    }
    if k, s :| r < k < i && s != own && ClosesOver(states, events, k, s, p) {
      ClosedByIff(states, events, r, i, s);
      assert states[i].settled[p] == [Closed(s)];
    }
  }

  /** An event at the end of a run that is being built. */
  lemma Happens(states: seq<Client>, events: seq<Event>, e: Event) returns (more: seq<Client>, longer: seq<Event>)
    requires Run(states, events) && Enabled(states[|states| - 1], e)
    ensures Run(more, longer) && more[|more| - 1] == Next(states[|states| - 1], e)
  {
    more, longer := states + [Next(states[|states| - 1], e)], events + [e];
  }

  /** A client can open a second connection while its first one is open. */
  lemma SecondConnection() returns (states: seq<Client>, events: seq<Event>)
    ensures Run(states, events) && states[|states| - 1] == FRESH.(socket := Some(1), open := {0, 1})
  {
    states, events := [FRESH], [];
    states, events := Happens(states, events, Connect(0));
    states, events := Happens(states, events, Opened(0));
    states, events := Happens(states, events, Connect(1));
    states, events := Happens(states, events, Opened(1));
  }

  /** That does happen: a request made on a second connection, with a reply on its way, is rejected when
      the first one closes. */
  lemma StaleCloseHappens(body: Body) returns (states: seq<Client>, events: seq<Event>)
    ensures Run(states, events)
    ensures var c := states[|states| - 1];
      c.settled == [[Closed(0)]] && |c.sent| == 1 && c.sent[0].socket == 1 && c.socket.None? && 1 in c.open
  {
    states, events := SecondConnection();
    states, events := Happens(states, events, Request(body));
    var c := states[|states| - 1];
    assert c.settled == [[]] && c.pending[FormatInt(1)] == 0;
    assert Awaited(c.pending, 0);
    states, events := Happens(states, events, Lost(0));
    assert Rejected(c.settled, c.pending, Closed(0))[0] == [Closed(0)];
  }

  /** No request sent by `unsubscribe` names types and addresses together; each dimension that is
      named is sent once, addresses first, and only on an open socket. */
  lemma UnsubscribeSplits(c: Client, types: seq<string>, addresses: seq<string>)
    ensures var d := Unsubscribed(c, types, addresses);
      && c.sent <= d.sent
      && (forall i | |c.sent| <= i < |d.sent| :: d.sent[i].body.Removal?
            && (d.sent[i].body == Removal([], addresses) || d.sent[i].body == Removal(types, [])))
      && (IsOpen(c) && addresses != [] ==> |d.sent| > |c.sent| && d.sent[|c.sent|].body == Removal([], addresses))
      && (IsOpen(c) && types != [] ==> |d.sent| > |c.sent| && d.sent[|d.sent| - 1].body == Removal(types, []))
      && |d.sent| == |c.sent| + if !IsOpen(c) then 0 else
           (if addresses != [] then 1 else 0) + (if types != [] then 1 else 0)
  {
  }
}
