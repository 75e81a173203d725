/** Request/response multiplexing over a connection that may be torn down and replaced at any time:
    sendRequest, routeResponse and failAllPending (subscriber/request.go) interleaved with the read
    loops and the deferred teardown of connect (subscriber/connection.go). Every block under a lock,
    and every channel operation, is one step. Callers, readers and connections are unbounded in
    number, and a reader may go on after its connection has been torn down. */
module RequestProtocol {
  import opened Decimal
  import opened PendingTable
  import opened Words
  import opened Wrappers

  /** Where a delivered message came from: a frame read from a socket, or a teardown. */
  datatype Origin = Wire(frame: nat) | Teardown(generation: nat)

  datatype Delivery = Delivery(response: Response, origin: Origin)

  datatype Outcome =
    | MarshalFailed
    | NotConnected
    | WriteFailed
    | ContextDone
    | RequestFailed(delivery: Delivery)
    | Succeeded(delivery: Delivery)

  /** Where a call to sendRequest stands; `generation` is the connection its request went out on. */
  datatype Phase =
    | Numbered
    | Registered
    | Waiting(generation: nat)
    | Leaving(outcome: Outcome)
    | Returned(outcome: Outcome)

  /** `slot` is the call's one-place channel, `offers` everything ever sent towards it. */
  datatype Call = Call(phase: Phase, slot: Option<Delivery>, offers: seq<Delivery>)

  /** Where the deferred teardown of the current connection stands. */
  datatype Link = Down | Up | Cleared | Closed | Failing(todo: set<string>)

  datatype Reader =
    | Reading
    | Found(delivery: Delivery)
    | Sending(call: nat, delivery: Delivery)

  /** A received response with an error makes the request fail. */
  function Judged(d: Delivery): Outcome {
    if d.response.error != "" then RequestFailed(d) else Succeeded(d)
  }

  datatype State = State(
    calls: seq<Call>,
    pending: map<string, nat>,
    active: Option<nat>,
    generation: nat,
    link: Link,
    readers: map<nat, Reader>,
    wire: seq<Response>)

  datatype Action =
    | Begin
    | Marshal(call: nat)
    | Register(call: nat)
    | Write(call: nat, ok: bool)
    | Cancel(call: nat)
    | Receive(call: nat)
    | Deregister(call: nat)
    | Connect
    | ClearActive
    | CloseSocket
    | FailBegin
    | FailOne(id: string)
    | FailEnd
    | ReadFrame(reader: nat, response: Response)
    | Lookup(reader: nat)
    | Send(reader: nat)
    | ReaderExit(reader: nat)

  const INIT := State([], map[], None, 0, Down, map[], [])

  /** The pending table's lock is held throughout failAllPending. */
  predicate Locked(s: State) { s.link.Failing? }

  predicate InPhase(s: State, k: nat, p: Phase) {
    k < |s.calls| && s.calls[k].phase == p
  }

  predicate Enabled(s: State, a: Action) {
    match a
    case Begin => |s.calls| < TWO_64
    case Marshal(k) => InPhase(s, k, Numbered)
    case Register(k) => InPhase(s, k, Numbered) && !Locked(s)
    case Write(k, ok) => InPhase(s, k, Registered)
    case Cancel(k) => k < |s.calls| && s.calls[k].phase.Waiting?
    case Receive(k) => k < |s.calls| && s.calls[k].phase.Waiting? && s.calls[k].slot.Some?
    case Deregister(k) => k < |s.calls| && s.calls[k].phase.Leaving? && !Locked(s)
    case Connect => s.link == Down
    case ClearActive => s.link == Up
    case CloseSocket => s.link == Cleared
    case FailBegin => s.link == Closed
    case FailOne(id) => s.link.Failing? && id in s.link.todo && id in s.pending && s.pending[id] < |s.calls|
    case FailEnd => s.link.Failing? && s.link.todo == {}
    case ReadFrame(g, r) => g in s.readers && s.readers[g].Reading? && r.id != ""
    case Lookup(g) => g in s.readers && s.readers[g].Found? && !Locked(s)
    case Send(g) => g in s.readers && s.readers[g].Sending? && s.readers[g].call < |s.calls|
    case ReaderExit(g) => g in s.readers && s.readers[g].Reading?
  }

  function Moved(s: State, k: nat, p: Phase): State
    requires k < |s.calls|
  {
    s.(calls := s.calls[k := s.calls[k].(phase := p)])
  }

  /** A non-blocking send to the channel of call `k`. */
  function Offered(s: State, k: nat, d: Delivery): State
    requires k < |s.calls|
  {
    var c := s.calls[k];
    s.(calls := s.calls[k := c.(slot := Put(c.slot, d), offers := c.offers + [d])])
  }

  function Next(s: State, a: Action): State
    requires Enabled(s, a)
  {
    match a
    case Begin => s.(calls := s.calls + [Call(Numbered, None, [])])
    case Marshal(k) => Moved(s, k, Returned(MarshalFailed))
    case Register(k) => Moved(s, k, Registered).(pending := s.pending[RequestId(k) := k])
    case Write(k, ok) =>
      if s.active.None? then Moved(s, k, Leaving(NotConnected))
      else if !ok then Moved(s, k, Leaving(WriteFailed))
      else Moved(s, k, Waiting(s.active.value))
    case Cancel(k) => Moved(s, k, Leaving(ContextDone))
    case Receive(k) =>
      s.(calls := s.calls[k := s.calls[k].(phase := Leaving(Judged(s.calls[k].slot.value)), slot := None)])
    case Deregister(k) =>
      Moved(s, k, Returned(s.calls[k].phase.outcome)).(pending := s.pending - {RequestId(k)})
    case Connect =>
      s.(link := Up, generation := s.generation + 1, active := Some(s.generation + 1),
         readers := s.readers[s.generation + 1 := Reading])
    case ClearActive => s.(link := Cleared, active := None)
    case CloseSocket => s.(link := Closed)
    case FailBegin => s.(link := Failing(s.pending.Keys))
    case FailOne(id) =>
      Offered(s, s.pending[id], Delivery(ConnectionClosed(id), Teardown(s.generation)))
        .(link := Failing(s.link.todo - {id}))
    case FailEnd => s.(link := Down, pending := map[])
    case ReadFrame(g, r) =>
      s.(wire := s.wire + [r], readers := s.readers[g := Found(Delivery(r, Wire(|s.wire|)))])
    case Lookup(g) =>
      var d := s.readers[g].delivery;
      var next := if d.response.id in s.pending then Sending(s.pending[d.response.id], d) else Reading;
      s.(readers := s.readers[g := next])
    case Send(g) =>
      Offered(s, s.readers[g].call, s.readers[g].delivery).(readers := s.readers[g := Reading])
    case ReaderExit(g) => s.(readers := s.readers - {g})
  }

  // ----- The invariant -----

  /** The first thing offered is what the slot holds, or what the call has taken out of it. */
  ghost predicate FirstOfferWins(c: Call) {
    match Took(c.phase)
    case Some(d) => c.offers != [] && d == c.offers[0]
    case None => c.slot == if c.offers == [] then None else Some(c.offers[0])
  }

  /** What a call has taken out of its channel. */
  function Took(p: Phase): Option<Delivery> {
    match p
    case Leaving(o) => Carried(o)
    case Returned(o) => Carried(o)
    case _ => None
  }

  function Carried(o: Outcome): Option<Delivery> {
    match o
    case RequestFailed(d) => Some(d)
    case Succeeded(d) => Some(d)
    case _ => None
  }

  /** A delivery is genuine and carries the given id. */
  ghost predicate Genuine(s: State, d: Delivery, id: string) {
    && d.response.id == id
    && match d.origin
       case Wire(n) => n < |s.wire| && s.wire[n] == d.response
       case Teardown(g) => 1 <= g <= s.generation && d.response == ConnectionClosed(id)
  }

  ghost predicate CallsOk(s: State) {
    && |s.calls| <= TWO_64
    && (forall k | 0 <= k < |s.calls| :: FirstOfferWins(s.calls[k]))
    && (forall k, i | 0 <= k < |s.calls| && 0 <= i < |s.calls[k].offers| ::
          Genuine(s, s.calls[k].offers[i], RequestId(k)))
  }

  predicate InFlight(p: Phase) { p.Registered? || p.Waiting? || p.Leaving? }

  ghost predicate PendingOk(s: State) {
    forall id | id in s.pending ::
      s.pending[id] < |s.calls| && RequestId(s.pending[id]) == id && InFlight(s.calls[s.pending[id]].phase)
  }

  ghost predicate ReaderOk(s: State, r: Reader) {
    match r
    case Reading => true
    case Found(d) => Genuine(s, d, d.response.id)
    case Sending(k, d) => k < |s.calls| && Genuine(s, d, RequestId(k))
  }

  ghost predicate ReadersOk(s: State) {
    forall g | g in s.readers :: g <= s.generation && ReaderOk(s, s.readers[g])
  }

  ghost predicate LinkOk(s: State) {
    && s.active == (if s.link.Up? then Some(s.generation) else None)
    && (!s.link.Down? ==> s.generation >= 1)
    && (s.link.Failing? ==> s.link.todo <= s.pending.Keys)
  }

  /** A caller between registering and leaving still has its id in the table, or something in its
      channel; and the table's entry is known not to have been visited by a running teardown unless
      the channel is full. */
  ghost predicate Reachable(s: State, k: nat)
    requires k < |s.calls|
  {
    s.calls[k].phase.Registered? || s.calls[k].phase.Waiting? ==>
      || s.calls[k].slot.Some?
      || (RequestId(k) in s.pending && s.pending[RequestId(k)] == k
          && (s.link.Failing? ==> RequestId(k) in s.link.todo))
  }

  /** Nobody waits with an empty channel for a connection whose teardown is over. */
  ghost predicate OnLiveLink(s: State, k: nat)
    requires k < |s.calls|
  {
    s.calls[k].phase.Waiting? ==>
      && 1 <= s.calls[k].phase.generation <= s.generation
      && (s.calls[k].slot.None? ==> s.calls[k].phase.generation == s.generation && !s.link.Down?)
  }

  ghost predicate Tracked(s: State, k: nat)
    requires k < |s.calls|
  {
    Reachable(s, k) && OnLiveLink(s, k)
  }

  ghost predicate NoOrphan(s: State) {
    forall k | 0 <= k < |s.calls| :: Tracked(s, k)
  }

  ghost predicate Inv(s: State) {
    CallsOk(s) && PendingOk(s) && ReadersOk(s) && LinkOk(s) && NoOrphan(s)
  }

  lemma InitInv()
    ensures Inv(INIT)
  {
  }

  // ----- Preservation -----

  /** The wire and the count of connections only grow. */
  predicate Later(s: State, t: State) {
    s.wire <= t.wire && s.generation <= t.generation && |s.calls| <= |t.calls|
  }

  lemma StepsOn(s: State, a: Action)
    requires Enabled(s, a)
    ensures Later(s, Next(s, a))
  {
  }

  lemma StillGenuine(s: State, t: State, d: Delivery, id: string)
    requires Later(s, t) && Genuine(s, d, id)
    ensures Genuine(t, d, id)
  {
  }

  /** What call `k` has been offered is as before, or one genuine thing more. */
  ghost predicate OffersGrown(s: State, t: State, k: nat)
    requires k < |s.calls| && k < |t.calls|
  {
    var before, after := s.calls[k].offers, t.calls[k].offers;
    after == before ||
    (|after| == |before| + 1 && after[..|before|] == before && Genuine(s, after[|before|], RequestId(k)))
  }

  lemma FailOneOffers(s: State, id: string, k: nat)
    requires Inv(s) && Enabled(s, FailOne(id)) && k < |s.calls|
    ensures OffersGrown(s, Next(s, FailOne(id)), k)
  {
  }

  lemma SendOffers(s: State, g: nat, k: nat)
    requires Inv(s) && Enabled(s, Send(g)) && k < |s.calls|
    ensures OffersGrown(s, Next(s, Send(g)), k)
  {
  }

  lemma OthersOfferNothing(s: State, a: Action, k: nat)
    requires Enabled(s, a) && k < |s.calls| && !a.FailOne? && !a.Send?
    ensures Next(s, a).calls[k].offers == s.calls[k].offers
  {
  }

  /** Each step offers at most one thing, a genuine one, to at most one call. */
  lemma OffersGrow(s: State, a: Action, k: nat)
    requires Inv(s) && Enabled(s, a) && k < |s.calls|
    ensures OffersGrown(s, Next(s, a), k)
  {
    match a
    case FailOne(id) => FailOneOffers(s, id, k);
    case Send(g) => SendOffers(s, g, k);
    case _ => OthersOfferNothing(s, a, k);
  }

  /** A step that offers something: the channel takes it exactly if it is the first. */
  lemma OfferKeepsFirst(s: State, a: Action, k: nat)
    requires Inv(s) && Enabled(s, a) && (a.FailOne? || a.Send?) && k < |s.calls|
    ensures FirstOfferWins(Next(s, a).calls[k])
  {
  }

  /** Steps a caller takes. */
  predicate CallStep(a: Action) {
    a.Begin? || a.Marshal? || a.Register? || a.Write? || a.Cancel? || a.Receive? || a.Deregister?
  }

  /** What a call takes out of its channel it takes with it. */
  lemma ReceiveKeepsFirst(s: State, j: nat, k: nat)
    requires Inv(s) && Enabled(s, Receive(j)) && k < |s.calls|
    ensures FirstOfferWins(Next(s, Receive(j)).calls[k])
  {
    assert FirstOfferWins(s.calls[k]);
  }

  lemma CallKeepsFirst(s: State, a: Action, k: nat)
    requires Inv(s) && Enabled(s, a) && CallStep(a) && !a.Receive? && k < |Next(s, a).calls|
    ensures FirstOfferWins(Next(s, a).calls[k])
  {
    assert k < |s.calls| ==> FirstOfferWins(s.calls[k]);
  }

  lemma OthersLeaveCalls(s: State, a: Action)
    requires Enabled(s, a) && !CallStep(a) && !a.FailOne? && !a.Send?
    ensures Next(s, a).calls == s.calls
  {
  }

  lemma FirstOfferKept(s: State, a: Action)
    requires Inv(s) && Enabled(s, a)
    ensures forall k | 0 <= k < |Next(s, a).calls| :: FirstOfferWins(Next(s, a).calls[k])
  {
    forall k | 0 <= k < |Next(s, a).calls| ensures FirstOfferWins(Next(s, a).calls[k]) {
      match a
      case FailOne(_) => OfferKeepsFirst(s, a, k);
      case Send(_) => OfferKeepsFirst(s, a, k);
      case Receive(j) => ReceiveKeepsFirst(s, j, k);
      case _ =>
        if CallStep(a) {
          CallKeepsFirst(s, a, k);
        } else {
          OthersLeaveCalls(s, a);
        }
    }
  }

  lemma OffersStayGenuine(s: State, t: State, k: nat, i: nat)
    requires CallsOk(s) && Later(s, t) && k < |s.calls| && OffersGrown(s, t, k)
    requires i < |t.calls[k].offers|
    ensures Genuine(t, t.calls[k].offers[i], RequestId(k))
  {
    var before, after := s.calls[k].offers, t.calls[k].offers;
    if i < |before| {
      assert after[..|before|][i] == before[i];
      assert Genuine(s, s.calls[k].offers[i], RequestId(k));
    }
    StillGenuine(s, t, after[i], RequestId(k));
  }

  lemma NewcomerHasNoOffers(s: State, a: Action)
    requires Enabled(s, a)
    ensures |s.calls| <= |Next(s, a).calls| <= |s.calls| + 1
    ensures |Next(s, a).calls| > |s.calls| ==> |s.calls| < TWO_64 && Next(s, a).calls[|s.calls|].offers == []
  {
  }

  lemma CallsKept(s: State, a: Action)
    requires Inv(s) && Enabled(s, a)
    ensures CallsOk(Next(s, a))
  {
    var t := Next(s, a);
    FirstOfferKept(s, a);
    NewcomerHasNoOffers(s, a);
    StepsOn(s, a);
    forall k, i | 0 <= k < |t.calls| && 0 <= i < |t.calls[k].offers|
      ensures Genuine(t, t.calls[k].offers[i], RequestId(k))
    {
      if k < |s.calls| {
        OffersGrow(s, a, k);
        OffersStayGenuine(s, t, k, i);
      }
    }
  }

  lemma DeregisterKeepsPending(s: State, k: nat)
    requires Inv(s) && Enabled(s, Deregister(k))
    ensures PendingOk(Next(s, Deregister(k)))
  {
    forall id | id in s.pending && s.pending[id] == k ensures id == RequestId(k) {
    }
  }

  lemma CallKeepsPending(s: State, a: Action)
    requires Inv(s) && Enabled(s, a) && CallStep(a) && !a.Deregister?
    ensures PendingOk(Next(s, a))
  {
  }

  /** A teardown empties the table at its end; an offer moves no call on. */
  lemma OthersKeepPending(s: State, a: Action)
    requires Inv(s) && Enabled(s, a) && !CallStep(a)
    ensures PendingOk(Next(s, a))
  {
  }

  lemma PendingKept(s: State, a: Action)
    requires Inv(s) && Enabled(s, a)
    ensures PendingOk(Next(s, a))
  {
    match a
    case Deregister(k) => DeregisterKeepsPending(s, k);
    case _ =>
      if CallStep(a) {
        CallKeepsPending(s, a);
      } else {
        OthersKeepPending(s, a);
      }
  }

  lemma WaitingReaderOk(s: State, t: State, r: Reader)
    requires Later(s, t) && ReaderOk(s, r)
    ensures ReaderOk(t, r)
  {
    match r
    case Reading =>
    case Found(d) => StillGenuine(s, t, d, d.response.id);
    case Sending(k, d) => StillGenuine(s, t, d, RequestId(k));
  }

  lemma MovingReaderOk(s: State, a: Action, g: nat)
    requires Inv(s) && Enabled(s, a) && g in Next(s, a).readers
    requires g !in s.readers || Next(s, a).readers[g] != s.readers[g]
    ensures g <= Next(s, a).generation && ReaderOk(Next(s, a), Next(s, a).readers[g])
  {
  }

  lemma ReadersKept(s: State, a: Action)
    requires Inv(s) && Enabled(s, a)
    ensures ReadersOk(Next(s, a))
  {
    var t := Next(s, a);
    StepsOn(s, a);
    forall g | g in t.readers ensures g <= t.generation && ReaderOk(t, t.readers[g]) {
      if g in s.readers && t.readers[g] == s.readers[g] {
        WaitingReaderOk(s, t, s.readers[g]);
      } else {
        MovingReaderOk(s, a, g);
      }
    }
  }

  lemma LinkKept(s: State, a: Action)
    requires Inv(s) && Enabled(s, a)
    ensures LinkOk(Next(s, a))
  {
  }

  lemma RegisterTracks(s: State, j: nat, k: nat)
    requires Inv(s) && Enabled(s, Register(j)) && k < |s.calls|
    ensures Tracked(Next(s, Register(j)), k)
  {
    assert Tracked(s, k);
    if j != k && RequestId(j) == RequestId(k) {
      RequestIdsDistinct(j, k);
    }
  }

  lemma DeregisterTracks(s: State, j: nat, k: nat)
    requires Inv(s) && Enabled(s, Deregister(j)) && k < |s.calls|
    ensures Tracked(Next(s, Deregister(j)), k)
  {
    assert Tracked(s, k);
    if j != k && RequestId(j) == RequestId(k) {
      RequestIdsDistinct(j, k);
    }
  }

  /** Steps of other calls do not concern `k`; its own move it on. */
  lemma CallTracks(s: State, a: Action, k: nat)
    requires Inv(s) && Enabled(s, a) && k < |s.calls|
    requires a.Begin? || a.Marshal? || a.Write? || a.Cancel? || a.Receive?
    ensures Tracked(Next(s, a), k)
  {
    assert Tracked(s, k);
  }

  /** An offer fills the channel, if it was empty. */
  lemma OfferTracks(s: State, a: Action, k: nat)
    requires Inv(s) && Enabled(s, a) && k < |s.calls| && (a.FailOne? || a.Send?)
    ensures Tracked(Next(s, a), k)
  {
    assert Tracked(s, k);
  }

  /** When a teardown ends, every channel it has not visited has nobody waiting on it. */
  lemma LinkTracks(s: State, a: Action, k: nat)
    requires Inv(s) && Enabled(s, a) && k < |s.calls|
    requires a.Connect? || a.ClearActive? || a.CloseSocket? || a.FailBegin? || a.FailEnd?
    ensures Tracked(Next(s, a), k)
  {
    assert Tracked(s, k);
  }

  lemma ReaderTracks(s: State, a: Action, k: nat)
    requires Inv(s) && Enabled(s, a) && k < |s.calls| && (a.ReadFrame? || a.Lookup? || a.ReaderExit?)
    ensures Tracked(Next(s, a), k)
  {
    assert Tracked(s, k);
  }

  lemma StepTracks(s: State, a: Action, k: nat)
    requires Inv(s) && Enabled(s, a) && k < |s.calls|
    ensures Tracked(Next(s, a), k)
  {
    match a
    case Register(j) => RegisterTracks(s, j, k);
    case Deregister(j) => DeregisterTracks(s, j, k);
    case FailOne(_) => OfferTracks(s, a, k);
    case Send(_) => OfferTracks(s, a, k);
    case Connect => LinkTracks(s, a, k);
    case ClearActive => LinkTracks(s, a, k);
    case CloseSocket => LinkTracks(s, a, k);
    case FailBegin => LinkTracks(s, a, k);
    case FailEnd => LinkTracks(s, a, k);
    case ReadFrame(_, _) => ReaderTracks(s, a, k);
    case Lookup(_) => ReaderTracks(s, a, k);
    case ReaderExit(_) => ReaderTracks(s, a, k);
    case _ => CallTracks(s, a, k);
  }

  /** A call that has just begun is not waiting for anything. */
  lemma NewcomerTracks(s: State, a: Action)
    requires Enabled(s, a) && |Next(s, a).calls| > |s.calls|
    ensures |Next(s, a).calls| == |s.calls| + 1 && Tracked(Next(s, a), |s.calls|)
  {
  }

  lemma NoOrphanKept(s: State, a: Action)
    requires Inv(s) && Enabled(s, a)
    ensures NoOrphan(Next(s, a))
  {
    var t := Next(s, a);
    forall k | 0 <= k < |t.calls| ensures Tracked(t, k) {
      if k < |s.calls| {
        StepTracks(s, a, k);
      } else {
        NewcomerTracks(s, a);
      }
    }
  }

  lemma StepInv(s: State, a: Action)
    requires Inv(s) && Enabled(s, a)
    ensures Inv(Next(s, a))
  {
    CallsKept(s, a);
    PendingKept(s, a);
    ReadersKept(s, a);
    LinkKept(s, a);
    NoOrphanKept(s, a);
  }

  // ----- Whole runs -----

  ghost predicate Stepped(states: seq<State>, actions: seq<Action>, i: nat)
    requires i < |actions| < |states|
  {
    Enabled(states[i], actions[i]) && states[i + 1] == Next(states[i], actions[i])
  }

  /** `states` are the states passed through by performing `actions` from the start. */
  ghost predicate Run(states: seq<State>, actions: seq<Action>) {
    && |states| == |actions| + 1
    && states[0] == INIT
    && forall i | 0 <= i < |actions| :: Stepped(states, actions, i)
  }

  lemma {:induction false} RunInv(states: seq<State>, actions: seq<Action>, i: nat)
    requires Run(states, actions) && i < |states|
    ensures Inv(states[i])
    decreases i
  {
    if i == 0 {
      InitInv();
    } else {
      RunInv(states, actions, i - 1);
      assert Stepped(states, actions, i - 1);
      StepInv(states[i - 1], actions[i - 1]);
    }
  }

  /** The teardown of connection `generation` has run to its end. */
  predicate TornDown(s: State, generation: nat) {
    generation < s.generation || (generation == s.generation && s.link.Down?)
  }

  /** No orphaned request. At every point of every run, a caller waiting for a reply on a connection
      that has been torn down has something to receive: receiving is possible and hands it either a
      reply bearing its own id or the failure for its own id, and in any case the first offer made. */
  lemma NoOrphanedRequest(states: seq<State>, actions: seq<Action>, i: nat, k: nat)
    requires Run(states, actions) && i < |states|
    requires k < |states[i].calls| && states[i].calls[k].phase.Waiting?
    requires TornDown(states[i], states[i].calls[k].phase.generation)
    ensures Enabled(states[i], Receive(k))
    ensures var call := Next(states[i], Receive(k)).calls[k];
      && call.offers != [] && call.phase == Leaving(Judged(call.offers[0]))
      && Genuine(states[i], call.offers[0], RequestId(k))
  {
    RunInv(states, actions, i);
    assert Tracked(states[i], k);
    assert FirstOfferWins(states[i].calls[k]);
  }

  /** While a waiting caller has nothing to receive, its connection is the current one and the table
      still leads to it, so a reply for it that is looked up now arrives. */
  lemma ReplyStillReaches(states: seq<State>, actions: seq<Action>, i: nat, k: nat, reader: nat)
    requires Run(states, actions) && i < |states|
    requires k < |states[i].calls| && states[i].calls[k].phase.Waiting? && states[i].calls[k].slot.None?
    requires reader in states[i].readers && states[i].readers[reader].Found? && !Locked(states[i])
    requires states[i].readers[reader].delivery.response.id == RequestId(k)
    ensures states[i].calls[k].phase.generation == states[i].generation && !states[i].link.Down?
    ensures var found := Next(states[i], Lookup(reader));
      && Enabled(found, Send(reader))
      && Next(found, Send(reader)).calls[k].slot == Some(states[i].readers[reader].delivery)
  {
    RunInv(states, actions, i);
    assert Tracked(states[i], k);
  }

  /** What a call returns is the first thing offered to it, and bears its own id. */
  lemma ReturnsOwnFirstReply(states: seq<State>, actions: seq<Action>, i: nat, k: nat, d: Delivery)
    requires Run(states, actions) && i < |states| && k < |states[i].calls|
    requires Took(states[i].calls[k].phase) == Some(d)
    ensures states[i].calls[k].offers != [] && d == states[i].calls[k].offers[0]
    ensures d.response.id == RequestId(k)
    ensures d.origin.Wire? ==> d.origin.frame < |states[i].wire| && states[i].wire[d.origin.frame] == d.response
  {
    RunInv(states, actions, i);
    assert FirstOfferWins(states[i].calls[k]);
    assert Genuine(states[i], states[i].calls[k].offers[0], RequestId(k));
  }

  /** No frame read from any socket is ever offered to two calls, let alone returned by two. */
  lemma FrameReachesOneCall(states: seq<State>, actions: seq<Action>, i: nat, j: nat, k: nat, d: Delivery, e: Delivery)
    requires Run(states, actions) && i < |states| && j < |states[i].calls| && k < |states[i].calls|
    requires d in states[i].calls[j].offers && e in states[i].calls[k].offers
    requires d.origin.Wire? && d.origin == e.origin
    ensures j == k
  {
    RunInv(states, actions, i);
    var s := states[i];
    var m :| 0 <= m < |s.calls[j].offers| && s.calls[j].offers[m] == d;
    var n :| 0 <= n < |s.calls[k].offers| && s.calls[k].offers[n] == e;
    assert Genuine(s, s.calls[j].offers[m], RequestId(j)) && Genuine(s, s.calls[k].offers[n], RequestId(k));
    RequestIdsDistinct(j, k);
  }

  /** The table never holds anything but ids of calls that have registered and not returned. */
  lemma PendingAreInFlight(states: seq<State>, actions: seq<Action>, i: nat, id: string)
    requires Run(states, actions) && i < |states| && id in states[i].pending
    ensures exists k :: 0 <= k < |states[i].calls| && RequestId(k) == id && InFlight(states[i].calls[k].phase)
  {
    RunInv(states, actions, i);
    var k := states[i].pending[id];
    assert RequestId(k) == id && InFlight(states[i].calls[k].phase);
  }

  // ----- Teardown finishes -----

  predicate TeardownStep(a: Action) {
    a.ClearActive? || a.CloseSocket? || a.FailBegin? || a.FailOne? || a.FailEnd?
  }

  /** A teardown under way always has a next step of its own. */
  lemma TeardownNeverBlocks(s: State)
    requires Inv(s) && !s.link.Down? && !s.link.Up?
    ensures exists b :: TeardownStep(b) && Enabled(s, b)
  {
    match s.link {
      case Cleared => assert Enabled(s, CloseSocket);
      case Closed => assert Enabled(s, FailBegin);
      case Failing(todo) =>
        if todo == {} {
          assert Enabled(s, FailEnd);
        } else {
          var id :| id in todo;
          assert Enabled(s, FailOne(id));
        }
    }
  }

  /** How many of the steps `i`, ..., `j - 1` belong to a teardown. */
  function TeardownSteps(actions: seq<Action>, i: nat, j: nat): nat
    requires j <= |actions|
    decreases j
  {
    if j <= i then 0 else TeardownSteps(actions, i, j - 1) + if TeardownStep(actions[j - 1]) then 1 else 0
  }

  /** How many calls the table held when failAllPending took hold of it, last in these steps. */
  function Taken(states: seq<State>, actions: seq<Action>, i: nat, j: nat): nat
    requires j <= |actions| <= |states|
    decreases j
  {
    if j <= i then 0
    else if actions[j - 1].FailBegin? then |states[j - 1].pending|
    else Taken(states, actions, i, j - 1)
  }

  /** How many steps a teardown has taken, by its stage, if it found `p` calls in the table. */
  function Spent(l: Link, p: nat): int {
    match l
    case Up => 0
    case Cleared => 1
    case Closed => 2
    case Failing(todo) => 3 + p - |todo|
    case Down => 4 + p
  }

  lemma TeardownSpends(s: State, a: Action, p: nat)
    requires Enabled(s, a) && TeardownStep(a)
    ensures !Next(s, a).link.Up?
    ensures Spent(Next(s, a).link, if a.FailBegin? then |s.pending| else p) == Spent(s.link, p) + 1
  {
    if a.FailBegin? {
      assert |s.pending| == |s.pending.Keys|;
    }
  }

  lemma OthersSpendNothing(s: State, a: Action)
    requires Enabled(s, a) && !TeardownStep(a) && a != Connect
    ensures Next(s, a).link == s.link
  {
  }

  lemma SpentNext(s: State, a: Action, p: nat)
    requires Enabled(s, a) && a != Connect
    ensures Spent(Next(s, a).link, if a.FailBegin? then |s.pending| else p)
         == Spent(s.link, p) + if TeardownStep(a) then 1 else 0
    ensures Next(s, a).link.Up? ==> s.link.Up?
  {
    if TeardownStep(a) {
      TeardownSpends(s, a, p);
    } else {
      OthersSpendNothing(s, a);
    }
  }

  /** A teardown ends: however callers, read loops of this and of earlier connections and the teardown
      interleave, from the step that clears the connection to the end it takes exactly four steps of
      its own and one for each call in the table when failAllPending took hold of it; and at any moment
      it has taken as many of them as its stage shows. */
  lemma {:induction false} TeardownLength(states: seq<State>, actions: seq<Action>, i: nat, j: nat)
    requires Run(states, actions) && i < j < |states|
    requires actions[i] == ClearActive && forall k | i < k < j :: actions[k] != Connect
    ensures !states[j].link.Up?
    ensures TeardownSteps(actions, i, j) == Spent(states[j].link, Taken(states, actions, i, j))
    decreases j
  {
    assert Stepped(states, actions, j - 1);
    if j == i + 1 {
      assert TeardownSteps(actions, i, i) == 0;
    } else {
      TeardownLength(states, actions, i, j - 1);
      SpentNext(states[j - 1], actions[j - 1], Taken(states, actions, i, j - 1));
    }
  }
}
