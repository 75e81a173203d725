/** Subscribing, closing, fanning out, receiving and shutting down, interleaved: the channel side of
    subscriber/subscriber.go. `fanOut` holds the registry's read lock, so any number of them run
    together, send by send; the others hold its write lock. web/broker/broker.go fans out to its
    clients in the same way. Sending to a closed channel, or closing one twice, panics. */
module FanOut {
  import Lists
  import opened Registry

  /** What happens to one consumer, in its own order. */
  datatype Local = Offer(fan: nat, event: Event) | Take | Shut

  /** A consumer's channel: what is buffered, what was received, and its log. */
  datatype Chan = Chan(buffer: seq<Event>, received: seq<Event>, closes: nat, once: bool, log: seq<Local>)

  /** One fan-out: its audience is the registry as it was when the lock was taken. */
  datatype Fan = Fan(event: Event, audience: seq<nat>, next: nat, finished: bool)

  datatype State = State(chans: seq<Chan>, registry: seq<nat>, fans: seq<Fan>, panicked: bool)

  datatype Action =
    | Subscribe
    | CloseSubscription(chan: nat)
    | FanBegin(event: Event)
    | FanSend(fan: nat)
    | FanEnd(fan: nat)
    | Receive(chan: nat)
    | CloseAll

  const INIT := State([], [], [], false)

  /** Nobody holds the read lock. */
  predicate WriteFree(s: State) {
    forall f | 0 <= f < |s.fans| :: s.fans[f].finished
  }

  predicate Enabled(s: State, a: Action) {
    match a
    case Subscribe => WriteFree(s)
    case CloseSubscription(c) => c < |s.chans| && (s.chans[c].once || WriteFree(s))
    case FanBegin(e) => true
    case FanSend(f) =>
      f < |s.fans| && !s.fans[f].finished && s.fans[f].next < |s.fans[f].audience|
      && s.fans[f].audience[s.fans[f].next] < |s.chans|
    case FanEnd(f) => f < |s.fans| && !s.fans[f].finished && s.fans[f].next == |s.fans[f].audience|
    case Receive(c) => c < |s.chans| && s.chans[c].buffer != []
    case CloseAll => WriteFree(s)
  }

  /** The registry without the first entry for `c`, as removeSub splices it. */
  function Spliced(registry: seq<nat>, c: nat): seq<nat> {
    if registry == [] then []
    else if registry[0] == c then registry[1..]
    else [registry[0]] + Spliced(registry[1..], c)
  }

  function Shutting(ch: Chan): Chan {
    ch.(closes := ch.closes + 1, log := ch.log + [Shut])
  }

  function Offering(ch: Chan, fan: nat, e: Event): Chan {
    ch.(buffer := Buffered(ch.buffer, e), log := ch.log + [Offer(fan, e)])
  }

  function Taking(ch: Chan): Chan
    requires ch.buffer != []
  {
    ch.(buffer := ch.buffer[1..], received := ch.received + [ch.buffer[0]], log := ch.log + [Take])
  }

  function Next(s: State, a: Action): State
    requires Enabled(s, a)
  {
    match a
    case Subscribe =>
      s.(chans := s.chans + [Chan([], [], 0, false, [])], registry := s.registry + [|s.chans|])
    case CloseSubscription(c) =>
      var ch := s.chans[c].(once := true);
      if s.chans[c].once || c !in s.registry then s.(chans := s.chans[c := ch])
      else s.(chans := s.chans[c := Shutting(ch)], registry := Spliced(s.registry, c),
              panicked := s.panicked || ch.closes > 0)
    case FanBegin(e) => s.(fans := s.fans + [Fan(e, s.registry, 0, false)])
    case FanSend(f) =>
      var fan := s.fans[f];
      var c := fan.audience[fan.next];
      s.(chans := s.chans[c := Offering(s.chans[c], f, fan.event)],
         fans := s.fans[f := fan.(next := fan.next + 1)],
         panicked := s.panicked || s.chans[c].closes > 0)
    case FanEnd(f) => s.(fans := s.fans[f := s.fans[f].(finished := true)])
    case Receive(c) => s.(chans := s.chans[c := Taking(s.chans[c])])
    case CloseAll =>
      s.(chans := seq(|s.chans|, c requires 0 <= c < |s.chans| =>
                   if c in s.registry then Shutting(s.chans[c]) else s.chans[c]),
         registry := [],
         panicked := s.panicked || exists c | c in s.registry && c < |s.chans| :: s.chans[c].closes > 0)
  }

  // ----- A consumer on its own -----

  datatype Consumer = Consumer(received: seq<Event>, buffer: seq<Event>)

  /** What one consumer ends up with, from its own log alone. */
  function Solo(log: seq<Local>): Consumer {
    if log == [] then Consumer([], [])
    else
      var before := Solo(log[..|log| - 1]);
      match log[|log| - 1]
      case Offer(fan, e) => if |before.buffer| == CAPACITY then before else before.(buffer := before.buffer + [e])
      case Take =>
        if before.buffer == [] then before
        else Consumer(before.received + [before.buffer[0]], before.buffer[1..])
      case Shut => before
  }

  /** The indices of the offers in a log that were let in: the buffer had room then. */
  function LetIn(log: seq<Local>): seq<nat> {
    if log == [] then []
    else
      var n := |log| - 1;
      if log[n].Offer? && |Solo(log[..n]).buffer| != CAPACITY then LetIn(log[..n]) + [n] else LetIn(log[..n])
  }

  lemma SoloSnoc(log: seq<Local>, l: Local)
    ensures (log + [l])[..|log|] == log
    ensures Solo(log + [l]) ==
      (var before := Solo(log);
       match l
       case Offer(fan, e) => if |before.buffer| == CAPACITY then before else before.(buffer := before.buffer + [e])
       case Take =>
         if before.buffer == [] then before
         else Consumer(before.received + [before.buffer[0]], before.buffer[1..])
       case Shut => before)
  {
    assert (log + [l])[..|log|] == log;
  }

  lemma LetInSnoc(log: seq<Local>, l: Local)
    ensures LetIn(log + [l]) == LetIn(log) + if l.Offer? && |Solo(log).buffer| != CAPACITY then [|log|] else []
  {
    assert (log + [l])[..|log|] == log;
  }

  ghost predicate Ordered(log: seq<Local>, kept: seq<Event>, at: seq<nat>) {
    && |kept| == |at|
    && (forall i | 0 <= i < |at| :: at[i] < |log| && log[at[i]].Offer? && log[at[i]].event == kept[i])
    && (forall i, j | 0 <= i < j < |at| :: at[i] < at[j])
  }

  /** A longer log keeps the order; an offer let in comes last. */
  lemma OrderedSnoc(log: seq<Local>, l: Local, kept: seq<Event>, at: seq<nat>)
    requires Ordered(log, kept, at)
    ensures Ordered(log + [l], kept, at)
    ensures l.Offer? ==> Ordered(log + [l], kept + [l.event], at + [|log|])
  {
  }

  function Held(c: Consumer): seq<Event> {
    c.received + c.buffer
  }

  /** Only an offer that is let in changes what is received or buffered, taken together. */
  lemma KeptSnoc(log: seq<Local>, l: Local)
    ensures Held(Solo(log + [l])) ==
      Held(Solo(log)) + if l.Offer? && |Solo(log).buffer| != CAPACITY then [l.event] else []
  {
    SoloSnoc(log, l);
    var before := Solo(log);
    if l.Take? && before.buffer != [] {
      assert before.buffer == [before.buffer[0]] + before.buffer[1..];
    }
  }

  /** Received and buffered together are exactly the offers let in, in the order of the offers. */
  lemma {:induction false} SoloKeepsOrder(log: seq<Local>)
    ensures Ordered(log, Solo(log).received + Solo(log).buffer, LetIn(log))
    decreases |log|
  {
    if log == [] {
    } else {
      var front, last := log[..|log| - 1], log[|log| - 1];
      SoloKeepsOrder(front);
      assert log == front + [last];
      KeptSnoc(front, last);
      LetInSnoc(front, last);
      OrderedSnoc(front, last, Held(Solo(front)), LetIn(front));
    }
  }

  /** An offered event is missing from that exactly if the log up to there leaves a full buffer. */
  lemma {:induction false} MissingOnlyWhenFull(log: seq<Local>, n: nat)
    requires n < |log| && log[n].Offer?
    ensures n in LetIn(log) <==> |Solo(log[..n]).buffer| != CAPACITY
    decreases |log|
  {
    var m := |log| - 1;
    var front := log[..m];
    SoloKeepsOrder(front);
    if n < m {
      MissingOnlyWhenFull(front, n);
      assert front[..n] == log[..n];
      if n in LetIn(log) && LetIn(log) != LetIn(front) {
        assert LetIn(log) == LetIn(front) + [m];
      }
    } else if |Solo(front).buffer| != CAPACITY {
      assert LetIn(log)[|LetIn(front)|] == n;
    }
  }

  // ----- The invariant -----

  /** Registered channels are distinct and open, and no channel is ever closed twice. */
  ghost predicate RegistryOk(s: State) {
    && Lists.Distinct(s.registry)
    && (forall c | c in s.registry :: c < |s.chans| && s.chans[c].closes == 0)
    && (forall c | 0 <= c < |s.chans| :: s.chans[c].closes <= 1)
    && !s.panicked
  }

  /** While a fan-out runs, its audience is the registry. */
  ghost predicate FansOk(s: State) {
    forall f | 0 <= f < |s.fans| ::
      && s.fans[f].next <= |s.fans[f].audience|
      && Lists.Distinct(s.fans[f].audience)
      && (forall c | c in s.fans[f].audience :: c < |s.chans|)
      && (if s.fans[f].finished then s.fans[f].next == |s.fans[f].audience| else s.fans[f].audience == s.registry)
  }

  ghost predicate HistoryOk(s: State) {
    forall c | 0 <= c < |s.chans| ::
      && Solo(s.chans[c].log) == Consumer(s.chans[c].received, s.chans[c].buffer)
      && |s.chans[c].buffer| <= CAPACITY
  }

  /** How often fan-out `f` has offered its event to the owner of the log. */
  function TimesOffered(log: seq<Local>, f: nat): nat {
    if log == [] then 0
    else TimesOffered(log[..|log| - 1], f)
         + if log[|log| - 1].Offer? && log[|log| - 1].fan == f then 1 else 0
  }

  /** Fan-out `f` has come to channel `c`. */
  predicate Reached(s: State, f: nat, c: nat) {
    f < |s.fans| && s.fans[f].next <= |s.fans[f].audience| && c in s.fans[f].audience[..s.fans[f].next]
  }

  /** Every fan-out has offered once to each of those it has come to, and to nobody else. */
  ghost predicate OffersOk(s: State) {
    forall c, f: nat | 0 <= c < |s.chans| ::
      TimesOffered(s.chans[c].log, f) == if Reached(s, f, c) then 1 else 0
  }

  /** What a fan-out offers is its own event. */
  ghost predicate EventsOk(s: State) {
    forall c, n | 0 <= c < |s.chans| && 0 <= n < |s.chans[c].log| && s.chans[c].log[n].Offer? ::
      s.chans[c].log[n].fan < |s.fans| && s.chans[c].log[n].event == s.fans[s.chans[c].log[n].fan].event
  }

  ghost predicate Inv(s: State) {
    RegistryOk(s) && FansOk(s) && HistoryOk(s) && OffersOk(s) && EventsOk(s)
  }

  lemma {:induction false} SplicedDistinct(registry: seq<nat>, c: nat)
    requires Lists.Distinct(registry)
    ensures Lists.Distinct(Spliced(registry, c))
    ensures forall d :: d in Spliced(registry, c) <==> d in registry && d != c
    decreases |registry|
  {
    if registry == [] {
    } else {
      assert registry == [registry[0]] + registry[1..];
      if registry[0] == c {
        assert c !in registry[1..];
      } else {
        SplicedDistinct(registry[1..], c);
        assert registry[0] !in registry[1..];
      }
    }
  }

  lemma SubscribeKeepsRegistry(s: State)
    requires Inv(s) && Enabled(s, Subscribe)
    ensures RegistryOk(Next(s, Subscribe))
  {
    assert forall i | 0 <= i < |s.registry| :: s.registry[i] in s.registry;
  }

  lemma CloseKeepsRegistry(s: State, c: nat)
    requires Inv(s) && Enabled(s, CloseSubscription(c))
    ensures RegistryOk(Next(s, CloseSubscription(c)))
  {
    SplicedDistinct(s.registry, c);
  }

  lemma SendKeepsRegistry(s: State, f: nat)
    requires Inv(s) && Enabled(s, FanSend(f))
    ensures RegistryOk(Next(s, FanSend(f)))
  {
    assert s.fans[f].audience[s.fans[f].next] in s.registry;
  }

  lemma RegistryKept(s: State, a: Action)
    requires Inv(s) && Enabled(s, a)
    ensures RegistryOk(Next(s, a))
  {
    match a {
      case Subscribe => SubscribeKeepsRegistry(s);
      case CloseSubscription(c) => CloseKeepsRegistry(s, c);
      case FanSend(f) => SendKeepsRegistry(s, f);
      case _ =>
    }
  }

  lemma FansKept(s: State, a: Action)
    requires Inv(s) && Enabled(s, a)
    ensures FansOk(Next(s, a))
  {
  }

  lemma HistoryKept(s: State, a: Action)
    requires Inv(s) && Enabled(s, a)
    ensures HistoryOk(Next(s, a))
  {
    var t := Next(s, a);
    forall c | 0 <= c < |t.chans|
      ensures Solo(t.chans[c].log) == Consumer(t.chans[c].received, t.chans[c].buffer)
      ensures |t.chans[c].buffer| <= CAPACITY
    {
      if c < |s.chans| && |t.chans[c].log| > |s.chans[c].log| {
        SoloSnoc(s.chans[c].log, t.chans[c].log[|s.chans[c].log|]);
      }
    }
  }

  lemma TimesOfferedSnoc(log: seq<Local>, l: Local, f: nat)
    ensures TimesOffered(log + [l], f) == TimesOffered(log, f) + if l.Offer? && l.fan == f then 1 else 0
  {
    assert (log + [l])[..|log|] == log;
  }

  lemma ReachedNext(s: State, a: Action, f: nat, c: nat)
    requires Inv(s) && Enabled(s, a)
    ensures Reached(Next(s, a), f, c) <==>
      Reached(s, f, c) || (a == FanSend(f) && c == s.fans[f].audience[s.fans[f].next])
    ensures a == FanSend(f) ==> !Reached(s, f, s.fans[f].audience[s.fans[f].next])
  {
    if a == FanSend(f) {
      var audience, n := s.fans[f].audience, s.fans[f].next;
      assert audience[..n + 1] == audience[..n] + [audience[n]];
    }
  }

  lemma ReachedIsChannel(s: State, f: nat, c: nat)
    requires FansOk(s) && Reached(s, f, c)
    ensures c < |s.chans|
  {
    var i :| 0 <= i < s.fans[f].next && s.fans[f].audience[..s.fans[f].next][i] == c;
    assert s.fans[f].audience[i] in s.fans[f].audience;
  }

  lemma OffersKept(s: State, a: Action)
    requires Inv(s) && Enabled(s, a)
    ensures OffersOk(Next(s, a))
  {
    var t := Next(s, a);
    forall c, f: nat | 0 <= c < |t.chans|
      ensures TimesOffered(t.chans[c].log, f) == if Reached(t, f, c) then 1 else 0
    {
      ReachedNext(s, a, f, c);
      if Reached(s, f, c) {
        ReachedIsChannel(s, f, c);
      }
      if c < |s.chans| && |t.chans[c].log| > |s.chans[c].log| {
        TimesOfferedSnoc(s.chans[c].log, t.chans[c].log[|s.chans[c].log|], f);
      }
    }
  }

  lemma SendKeepsEvents(s: State, f: nat)
    requires Inv(s) && Enabled(s, FanSend(f))
    ensures EventsOk(Next(s, FanSend(f)))
  {
  }

  lemma OthersKeepEvents(s: State, a: Action)
    requires Inv(s) && Enabled(s, a) && !a.FanSend?
    ensures EventsOk(Next(s, a))
  {
  }

  lemma EventsKept(s: State, a: Action)
    requires Inv(s) && Enabled(s, a)
    ensures EventsOk(Next(s, a))
  {
    match a
    case FanSend(f) => SendKeepsEvents(s, f);
    case _ => OthersKeepEvents(s, a);
  }

  // ----- Whole runs -----

  ghost predicate Stepped(states: seq<State>, actions: seq<Action>, i: nat)
    requires i < |actions| < |states|
  {
    Enabled(states[i], actions[i]) && states[i + 1] == Next(states[i], actions[i])
  }

  ghost predicate Run(states: seq<State>, actions: seq<Action>) {
    && |states| == |actions| + 1
    && states[0] == INIT
    && forall i | 0 <= i < |actions| :: Stepped(states, actions, i)
  }

  lemma {:induction false} RunInv(states: seq<State>, actions: seq<Action>, i: nat)
    requires Run(states, actions) && i < |states|
    ensures Inv(states[i])
    decreases i
  {
    if i == 0 {
    } else {
      RunInv(states, actions, i - 1);
      assert Stepped(states, actions, i - 1);
      RegistryKept(states[i - 1], actions[i - 1]);
      FansKept(states[i - 1], actions[i - 1]);
      HistoryKept(states[i - 1], actions[i - 1]);
      OffersKept(states[i - 1], actions[i - 1]);
      EventsKept(states[i - 1], actions[i - 1]);
    }
  }

  /** In no interleaving is anything sent to a closed channel or closed twice; what is registered is
      open and distinct. */
  lemma NeverPanics(states: seq<State>, actions: seq<Action>, i: nat)
    requires Run(states, actions) && i < |states|
    ensures !states[i].panicked && Lists.Distinct(states[i].registry)
    ensures forall c | c in states[i].registry :: c < |states[i].chans| && states[i].chans[c].closes == 0
  {
    RunInv(states, actions, i);
  }

  /** Closes are never undone, and nothing closes a channel that was closed before. */
  lemma {:induction false} ClosedStaysClosed(states: seq<State>, actions: seq<Action>, i: nat, j: nat, c: nat)
    requires Run(states, actions) && i <= j < |states| && c < |states[i].chans|
    ensures c < |states[j].chans| && states[i].chans[c].closes <= states[j].chans[c].closes <= 1
    decreases j - i
  {
    RunInv(states, actions, j);
    if i == j {
    } else {
      ClosedStaysClosed(states, actions, i, j - 1, c);
      assert Stepped(states, actions, j - 1);
    }
  }

  /** Every channel registered when `Start` shuts down has been closed exactly once, now and for the
      rest of the run. */
  lemma ShutdownClosesOnce(states: seq<State>, actions: seq<Action>, i: nat, j: nat, c: nat)
    requires Run(states, actions) && i < j < |states|
    requires actions[i] == CloseAll && c in states[i].registry
    ensures c < |states[j].chans| && states[j].chans[c].closes == 1
  {
    RunInv(states, actions, i);
    assert Stepped(states, actions, i);
    ClosedStaysClosed(states, actions, i + 1, j, c);
  }

  /** The history of every consumer is a function of its own log: nothing that happens to any other
      consumer changes it. With SoloKeepsOrder, it is an ordered part of what was offered. */
  lemma HistoryIsOwn(states: seq<State>, actions: seq<Action>, i: nat, c: nat)
    requires Run(states, actions) && i < |states| && c < |states[i].chans|
    ensures Solo(states[i].chans[c].log) == Consumer(states[i].chans[c].received, states[i].chans[c].buffer)
  {
    RunInv(states, actions, i);
  }

  /** A log is only ever added to. */
  lemma {:induction false} LogsGrow(states: seq<State>, actions: seq<Action>, i: nat, j: nat, c: nat)
    requires Run(states, actions) && i <= j < |states| && c < |states[i].chans|
    ensures c < |states[j].chans| && states[i].chans[c].log <= states[j].chans[c].log
    decreases j - i
  {
    if i == j {
    } else {
      LogsGrow(states, actions, i, j - 1, c);
      assert Stepped(states, actions, j - 1);
    }
  }

  /** Whom fan-out `f` comes to next. */
  function Receiver(s: State, f: nat): nat
    requires Enabled(s, FanSend(f))
  {
    s.fans[f].audience[s.fans[f].next]
  }

  /** Nothing is dropped without need, and nothing is let in late. When a fan-out sends to a consumer at
      some step of a run, the event is entered in the log there and then, and at every later moment it
      is among what that consumer has received or has buffered exactly if its buffer held fewer than
      256 items at that step. */
  lemma MissedExactlyWhenFull(states: seq<State>, actions: seq<Action>, i: nat, j: nat, f: nat)
    requires Run(states, actions) && i < j < |states| && actions[i] == FanSend(f)
    requires Enabled(states[i], FanSend(f))
    ensures var c, e := Receiver(states[i], f), states[i].fans[f].event;
      var n := |states[i].chans[c].log|;
      && c < |states[j].chans| && n < |states[j].chans[c].log| && states[j].chans[c].log[n] == Offer(f, e)
      && (n in LetIn(states[j].chans[c].log) <==> |states[i].chans[c].buffer| < 256)
      && var kept := states[j].chans[c].received + states[j].chans[c].buffer;
         |kept| == |LetIn(states[j].chans[c].log)|
         && forall k | 0 <= k < |kept| && LetIn(states[j].chans[c].log)[k] == n :: kept[k] == e
  {
    var c := Receiver(states[i], f);
    RunInv(states, actions, i);
    RunInv(states, actions, j);
    assert Stepped(states, actions, i);
    LogsGrow(states, actions, i + 1, j, c);
    var log, later := states[i].chans[c].log, states[j].chans[c].log;
    SoloKeepsOrder(later);
    var sent := states[i + 1].chans[c].log;
    assert sent == log + [Offer(f, states[i].fans[f].event)];
    assert later[..|log|] == later[..|sent|][..|log|] == log;
    MissingOnlyWhenFull(later, |log|);
  }

  /** Every finished fan-out offered its own event, and no other, exactly once to each consumer that was
      registered when it began, and never to anybody else. */
  lemma FanOutReachesAudience(states: seq<State>, actions: seq<Action>, i: nat, f: nat, c: nat)
    requires Run(states, actions) && i < |states| && f < |states[i].fans| && c < |states[i].chans|
    requires states[i].fans[f].finished
    ensures TimesOffered(states[i].chans[c].log, f) == if c in states[i].fans[f].audience then 1 else 0
    ensures forall l | l in states[i].chans[c].log && l.Offer? && l.fan == f :: l.event == states[i].fans[f].event
  {
    RunInv(states, actions, i);
    var fan := states[i].fans[f];
    assert fan.audience[..fan.next] == fan.audience;
  }

  /** A fan-out under way never waits for a consumer: it always has a next step, however full the
      buffers are, and takes one step per member of its audience. */
  lemma FanOutNeverBlocks(states: seq<State>, actions: seq<Action>, i: nat, f: nat)
    requires Run(states, actions) && i < |states| && f < |states[i].fans| && !states[i].fans[f].finished
    ensures var s := states[i];
      if s.fans[f].next < |s.fans[f].audience|
      then Enabled(s, FanSend(f)) && Next(s, FanSend(f)).fans[f].next == s.fans[f].next + 1
      else Enabled(s, FanEnd(f))
  {
    RunInv(states, actions, i);
    var fan := states[i].fans[f];
    if fan.next < |fan.audience| {
      assert fan.audience[fan.next] in fan.audience;
    }
  }

  // ----- Deleting all other consumers -----

  /** The state as it would be had only consumer `c` ever subscribed; it is then channel 0. */
  function Alone(s: State, c: nat): State {
    State(if c < |s.chans| then [s.chans[c]] else [],
          if c in s.registry then [0] else [],
          seq(|s.fans|, f requires 0 <= f < |s.fans| =>
            Fan(s.fans[f].event, if c in s.fans[f].audience then [0] else [],
                if Reached(s, f, c) then 1 else 0, s.fans[f].finished)),
          s.panicked)
  }

  datatype Kept = Deleted | Kept(action: Action)

  /** What is left of a step when everything the other consumers do is deleted. */
  function Image(s: State, a: Action, c: nat): Kept
    requires Enabled(s, a)
  {
    match a
    case Subscribe => if |s.chans| == c then Kept(Subscribe) else Deleted
    case CloseSubscription(d) => if d == c then Kept(CloseSubscription(0)) else Deleted
    case FanSend(f) => if s.fans[f].audience[s.fans[f].next] == c then Kept(a) else Deleted
    case Receive(d) => if d == c then Kept(Receive(0)) else Deleted
    case _ => Kept(a)
  }

  /** A step is invisible to `c`, or `c` alone can take what is left of it, with the same effect. */
  ghost predicate Mirrored(s: State, a: Action, c: nat)
    requires Enabled(s, a)
  {
    match Image(s, a, c)
    case Deleted => Alone(Next(s, a), c) == Alone(s, c)
    case Kept(b) => Enabled(Alone(s, c), b) && Next(Alone(s, c), b) == Alone(Next(s, a), c)
  }

  /** Steps that leave every fan-out as it is leave the fan-outs of `c` alone as they are. */
  lemma AloneFans(s: State, t: State, c: nat)
    requires s.fans == t.fans
    ensures Alone(s, c).fans == Alone(t, c).fans
  {
  }

  lemma MirrorsSubscribe(s: State, c: nat)
    requires Inv(s) && Enabled(s, Subscribe)
    ensures Mirrored(s, Subscribe, c)
  {
    var t := Next(s, Subscribe);
    AloneFans(s, t, c);
    assert forall d | d in s.registry :: d < |s.chans|;
    if |s.chans| == c {
      assert Next(Alone(s, c), Subscribe).registry == Alone(t, c).registry;
    }
  }

  lemma MirrorsClose(s: State, d: nat, c: nat)
    requires Inv(s) && Enabled(s, CloseSubscription(d))
    ensures Mirrored(s, CloseSubscription(d), c)
  {
    var t := Next(s, CloseSubscription(d));
    AloneFans(s, t, c);
    SplicedDistinct(s.registry, d);
    assert Spliced([0], 0) == [];
    if d == c {
      assert Next(Alone(s, c), CloseSubscription(0)).chans == Alone(t, c).chans;
    }
  }

  lemma MirrorsReceive(s: State, d: nat, c: nat)
    requires Inv(s) && Enabled(s, Receive(d))
    ensures Mirrored(s, Receive(d), c)
  {
    var t := Next(s, Receive(d));
    AloneFans(s, t, c);
    if d == c {
      assert Next(Alone(s, c), Receive(0)).chans == Alone(t, c).chans;
    }
  }

  lemma MirrorsCloseAll(s: State, c: nat)
    requires Inv(s) && Enabled(s, CloseAll)
    ensures Mirrored(s, CloseAll, c)
  {
    var t := Next(s, CloseAll);
    AloneFans(s, t, c);
    assert Next(Alone(s, c), CloseAll).chans == Alone(t, c).chans;
  }

  lemma MirrorsBegin(s: State, a: Action, c: nat)
    requires Inv(s) && Enabled(s, a) && a.FanBegin?
    ensures Mirrored(s, a, c)
  {
    var t := Next(s, a);
    forall f: nat ensures Reached(t, f, c) <==> Reached(s, f, c) {
      ReachedNext(s, a, f, c);
    }
    assert Next(Alone(s, c), a).fans == Alone(t, c).fans;
  }

  lemma MirrorsEnd(s: State, a: Action, c: nat)
    requires Inv(s) && Enabled(s, a) && a.FanEnd?
    ensures Mirrored(s, a, c)
  {
    var t := Next(s, a);
    forall f: nat ensures Reached(t, f, c) <==> Reached(s, f, c) {
      ReachedNext(s, a, f, c);
    }
    assert s.fans[a.fan].audience[..s.fans[a.fan].next] == s.fans[a.fan].audience;
    assert Next(Alone(s, c), a).fans == Alone(t, c).fans;
  }

  lemma MirrorsSend(s: State, a: Action, c: nat)
    requires Inv(s) && Enabled(s, a) && a.FanSend?
    ensures Mirrored(s, a, c)
  {
    var t := Next(s, a);
    var d := s.fans[a.fan].audience[s.fans[a.fan].next];
    forall f: nat ensures Reached(t, f, c) <==> Reached(s, f, c) || (f == a.fan && c == d) {
      ReachedNext(s, a, f, c);
    }
    ReachedNext(s, a, a.fan, c);
    assert d in s.fans[a.fan].audience;
    if d == c {
      assert Next(Alone(s, c), a).fans == Alone(t, c).fans;
    } else {
      assert Alone(s, c).fans == Alone(t, c).fans;
    }
  }

  lemma Mirrors(s: State, a: Action, c: nat)
    requires Inv(s) && Enabled(s, a)
    ensures Mirrored(s, a, c)
  {
    match a
    case FanBegin(_) => MirrorsBegin(s, a, c);
    case FanSend(_) => MirrorsSend(s, a, c);
    case FanEnd(_) => MirrorsEnd(s, a, c);
    case Subscribe => MirrorsSubscribe(s, c);
    case CloseSubscription(d) => MirrorsClose(s, d, c);
    case Receive(d) => MirrorsReceive(s, d, c);
    case CloseAll => MirrorsCloseAll(s, c);
  }

  lemma RunSnoc(states: seq<State>, actions: seq<Action>, a: Action)
    requires Run(states, actions) && Enabled(states[|states| - 1], a)
    ensures Run(states + [Next(states[|states| - 1], a)], actions + [a])
  {
    var more, longer := states + [Next(states[|states| - 1], a)], actions + [a];
    forall i | 0 <= i < |longer| ensures Stepped(more, longer, i) {
      if i < |actions| {
        assert Stepped(states, actions, i);
      }
    }
  }

  lemma RunFront(states: seq<State>, actions: seq<Action>)
    requires Run(states, actions) && actions != []
    ensures Run(states[..|actions|], actions[..|actions| - 1])
  {
    var fewer, front := states[..|actions|], actions[..|actions| - 1];
    forall i | 0 <= i < |front| ensures Stepped(fewer, front, i) {
      assert Stepped(states, actions, i);
    }
  }

  /** Isolation. Delete from any run everything that concerns other consumers: what remains is a run,
      and in it the consumer has the same buffer, the same received events and the same log. */
  lemma {:induction false} OthersCanBeDeleted(states: seq<State>, actions: seq<Action>, c: nat)
    returns (alone: seq<State>, kept: seq<Action>)
    requires Run(states, actions)
    ensures Run(alone, kept)
    ensures alone[|alone| - 1] == Alone(states[|states| - 1], c)
    decreases |actions|
  {
    if actions == [] {
      alone, kept := [INIT], [];
      assert Alone(INIT, c) == INIT;
    } else {
      var n := |actions| - 1;
      RunFront(states, actions);
      alone, kept := OthersCanBeDeleted(states[..n + 1], actions[..n], c);
      RunInv(states, actions, n);
      assert Stepped(states, actions, n);
      Mirrors(states[n], actions[n], c);
      var image := Image(states[n], actions[n], c);
      if image.Kept? {
        RunSnoc(alone, kept, image.action);
        alone, kept := alone + [Next(alone[|alone| - 1], image.action)], kept + [image.action];
      }
    }
  }
}
