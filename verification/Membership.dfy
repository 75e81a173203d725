/** Who gets which event, from subscribing to closing: over whole runs of FanOut.dfy, told from the
    actions taken. */
module Membership {
  import Lists
  import opened FanOut
  import opened Registry

  /** Channel `c` is closed by one of the steps `i`, ..., `j - 1`: its own close, or the shutdown. */
  predicate ClosedWithin(actions: seq<Action>, c: nat, i: nat, j: nat)
    requires j <= |actions|
    decreases j
  {
    i < j &&
    (actions[j - 1] == CloseSubscription(c) || actions[j - 1] == CloseAll || ClosedWithin(actions, c, i, j - 1))
  }

  /** How often `a` has been taken before step `i`. */
  function Times(actions: seq<Action>, a: Action, i: nat): nat
    requires i <= |actions|
  {
    if i == 0 then 0 else Times(actions, a, i - 1) + if actions[i - 1] == a then 1 else 0
  }

  /** A channel is open exactly while it is registered, and `once` only stops a second close. */
  ghost predicate OpenIffRegistered(s: State, c: nat)
    requires c < |s.chans|
  {
    (s.chans[c].closes == 0 <==> c in s.registry) && (c in s.registry ==> !s.chans[c].once)
  }

  ghost predicate MembersOk(s: State) {
    forall c | 0 <= c < |s.chans| :: OpenIffRegistered(s, c)
  }

  /** One step, as channel `c` sees it. */
  lemma MemberNext(s: State, a: Action, c: nat)
    requires Inv(s) && MembersOk(s) && Enabled(s, a) && c < |s.chans|
    ensures c < |Next(s, a).chans|
    ensures c in Next(s, a).registry <==> c in s.registry && a != CloseSubscription(c) && a != CloseAll
    ensures OpenIffRegistered(Next(s, a), c)
  {
    assert OpenIffRegistered(s, c);
    match a
    case CloseSubscription(d) => SplicedDistinct(s.registry, d);
    case FanSend(f) => assert s.fans[f].audience[s.fans[f].next] in s.registry;
    case _ =>
  }

  lemma NewcomerRegistered(s: State, a: Action)
    requires RegistryOk(s) && Enabled(s, a)
    ensures |s.chans| <= |Next(s, a).chans| <= |s.chans| + 1
    ensures |Next(s, a).chans| > |s.chans| <==> a == Subscribe
    ensures a == Subscribe ==>
      |s.chans| in Next(s, a).registry && OpenIffRegistered(Next(s, a), |s.chans|)
      && Next(s, a).chans[|s.chans|] == Chan([], [], 0, false, [])
  {
    if a == Subscribe {
      assert Next(s, a).registry[|s.registry|] == |s.chans|;
    }
  }

  lemma {:induction false} RunMembers(states: seq<State>, actions: seq<Action>, i: nat)
    requires Run(states, actions) && i < |states|
    ensures MembersOk(states[i])
    decreases i
  {
    if i == 0 {
    } else {
      var s, a := states[i - 1], actions[i - 1];
      RunMembers(states, actions, i - 1);
      RunInv(states, actions, i - 1);
      assert Stepped(states, actions, i - 1);
      NewcomerRegistered(s, a);
      forall c | 0 <= c < |states[i].chans| ensures OpenIffRegistered(states[i], c) {
        if c < |s.chans| {
          MemberNext(s, a, c);
        }
      }
    }
  }

  /** From the step that subscribes it, a channel is registered, and open, exactly until it is closed by
      its own close or by the shutdown; then it has been closed once. */
  lemma {:induction false} RegisteredUntilClosed(states: seq<State>, actions: seq<Action>, i: nat, j: nat)
    requires Run(states, actions) && i < j < |states| && actions[i] == Subscribe
    ensures var c := |states[i].chans|;
      && c < |states[j].chans|
      && (c in states[j].registry <==> !ClosedWithin(actions, c, i + 1, j))
      && states[j].chans[c].closes == if ClosedWithin(actions, c, i + 1, j) then 1 else 0
    decreases j
  {
    RunInv(states, actions, j);
    RunMembers(states, actions, j);
    RunInv(states, actions, j - 1);
    RunMembers(states, actions, j - 1);
    var c := |states[i].chans|;
    assert Stepped(states, actions, j - 1);
    if j == i + 1 {
      NewcomerRegistered(states[i], actions[i]);
    } else {
      RegisteredUntilClosed(states, actions, i, j - 1);
      MemberNext(states[j - 1], actions[j - 1], c);
    }
    assert OpenIffRegistered(states[j], c);
  }

  // ----- Fan-outs -----

  lemma FanNext(s: State, a: Action, f: nat)
    requires Enabled(s, a) && f < |s.fans|
    ensures f < |Next(s, a).fans| && Next(s, a).fans[f].event == s.fans[f].event
    ensures Next(s, a).fans[f].audience == s.fans[f].audience
    ensures Next(s, a).fans[f].finished <==> s.fans[f].finished || a == FanEnd(f)
  {
  }

  lemma FanBegins(s: State, a: Action)
    requires Enabled(s, a) && a.FanBegin?
    ensures Next(s, a).fans == s.fans + [Fan(a.event, s.registry, 0, false)]
  {
  }

  /** A fan-out carries its event to the registry of its beginning, and is over exactly when it has ended. */
  lemma {:induction false} FanCarries(states: seq<State>, actions: seq<Action>, j: nat, m: nat)
    requires Run(states, actions) && j < m < |states| && actions[j].FanBegin?
    ensures var f := |states[j].fans|;
      && f < |states[m].fans|
      && states[m].fans[f].event == actions[j].event && states[m].fans[f].audience == states[j].registry
      && (states[m].fans[f].finished <==> Times(actions, FanEnd(f), m) > Times(actions, FanEnd(f), j))
    decreases m
  {
    var f := |states[j].fans|;
    assert Stepped(states, actions, m - 1);
    if m == j + 1 {
      FanBegins(states[j], actions[j]);
    } else {
      FanCarries(states, actions, j, m - 1);
      FanNext(states[m - 1], actions[m - 1], f);
      TimesGrow(actions, FanEnd(f), j, m - 1);
    }
  }

  lemma {:induction false} TimesGrow(actions: seq<Action>, a: Action, i: nat, j: nat)
    requires i <= j <= |actions|
    ensures Times(actions, a, i) <= Times(actions, a, j)
    decreases j
  {
    if i == j {
    } else {
      TimesGrow(actions, a, i, j - 1);
    }
  }

  /** Everybody subscribed gets everything: a channel subscribed at step `i` is offered the event of a
      fan-out begun at a later step `j`, once, by the time that fan-out has ended, exactly if it was not
      closed in between; and whatever this fan-out offers is that event. */
  lemma SubscribedIsOffered(states: seq<State>, actions: seq<Action>, i: nat, j: nat, m: nat)
    requires Run(states, actions) && i < j < m < |states| && actions[i] == Subscribe && actions[j].FanBegin?
    requires Times(actions, FanEnd(|states[j].fans|), m) > Times(actions, FanEnd(|states[j].fans|), j)
    ensures var c, f := |states[i].chans|, |states[j].fans|;
      && c < |states[m].chans|
      && TimesOffered(states[m].chans[c].log, f) == (if ClosedWithin(actions, c, i + 1, j) then 0 else 1)
      && forall l | l in states[m].chans[c].log && l.Offer? && l.fan == f :: l.event == actions[j].event
  {
    var c, f := |states[i].chans|, |states[j].fans|;
    RegisteredUntilClosed(states, actions, i, j);
    RegisteredUntilClosed(states, actions, i, m);
    FanCarries(states, actions, j, m);
    FanOutReachesAudience(states, actions, m, f, c);
  }

  /** A close ends it: closing a registered channel takes it out of the registry for good and closes it
      once; closing it again, or after the shutdown, changes neither. */
  lemma CloseIsFinal(states: seq<State>, actions: seq<Action>, i: nat, j: nat, c: nat)
    requires Run(states, actions) && i < j < |states| && c < |states[i].chans|
    requires actions[i] == CloseSubscription(c) || actions[i] == CloseAll
    ensures c < |states[j].chans| && c !in states[j].registry && states[j].chans[c].closes == 1
    decreases j
  {
    RunInv(states, actions, j);
    RunMembers(states, actions, j);
    RunInv(states, actions, j - 1);
    RunMembers(states, actions, j - 1);
    assert Stepped(states, actions, j - 1);
    if j == i + 1 {
    } else {
      CloseIsFinal(states, actions, i, j - 1, c);
    }
    MemberNext(states[j - 1], actions[j - 1], c);
    assert OpenIffRegistered(states[j], c);
  }

  // ----- Receiving -----

  lemma ReceivedNext(s: State, a: Action, c: nat)
    requires Enabled(s, a) && c < |s.chans|
    ensures c < |Next(s, a).chans|
    ensures |Next(s, a).chans[c].received| == |s.chans[c].received| + if a == Receive(c) then 1 else 0
    ensures Next(s, a).chans[c].once <==> s.chans[c].once || a == CloseSubscription(c)
  {
  }

  /** A consumer has received one event for each of its receives; so, by SoloKeepsOrder, exactly the
      first of the offers let in. And `once` is set exactly by its close. */
  lemma {:induction false} ReceivesInTurn(states: seq<State>, actions: seq<Action>, i: nat, c: nat)
    requires Run(states, actions) && i < |states|
    ensures c < |states[i].chans| ==>
      && |states[i].chans[c].received| == Times(actions, Receive(c), i)
      && (states[i].chans[c].once <==> Times(actions, CloseSubscription(c), i) > 0)
    ensures c >= |states[i].chans| ==>
      Times(actions, Receive(c), i) == 0 && Times(actions, CloseSubscription(c), i) == 0
    decreases i
  {
    if i == 0 {
    } else {
      ReceivesInTurn(states, actions, i - 1, c);
      RunInv(states, actions, i - 1);
      assert Stepped(states, actions, i - 1);
      NewcomerRegistered(states[i - 1], actions[i - 1]);
      if c < |states[i - 1].chans| {
        ReceivedNext(states[i - 1], actions[i - 1], c);
      }
    }
  }

  /** What the consumer has received is, event by event, the first of the offers let in. */
  lemma ReceivesOldestFirst(states: seq<State>, actions: seq<Action>, i: nat, c: nat)
    requires Run(states, actions) && i < |states| && c < |states[i].chans|
    ensures var ch := states[i].chans[c]; var n := Times(actions, Receive(c), i);
      && |ch.received| == n <= |LetIn(ch.log)|
      && forall k | 0 <= k < n :: LetIn(ch.log)[k] < |ch.log|
           && ch.log[LetIn(ch.log)[k]].Offer? && ch.received[k] == ch.log[LetIn(ch.log)[k]].event
  {
    ReceivesInTurn(states, actions, i, c);
    HistoryIsOwn(states, actions, i, c);
    SoloKeepsOrder(states[i].chans[c].log);
    var ch := states[i].chans[c];
    assert forall k | 0 <= k < |ch.received| :: (ch.received + ch.buffer)[k] == ch.received[k];
  }

  lemma Does(states: seq<State>, actions: seq<Action>, a: Action) returns (more: seq<State>, longer: seq<Action>)
    requires Run(states, actions) && Enabled(states[|states| - 1], a)
    ensures Run(more, longer) && more[|more| - 1] == Next(states[|states| - 1], a)
  {
    RunSnoc(states, actions, a);
    more, longer := states + [Next(states[|states| - 1], a)], actions + [a];
  }

  /** A consumer that subscribes is sent an event. */
  lemma EventIsSent(e: Event) returns (states: seq<State>, actions: seq<Action>)
    ensures Run(states, actions)
    ensures var s := states[|states| - 1];
      && |s.chans| == 1 && s.chans[0].buffer == [e] && s.chans[0].received == []
      && s.chans[0].closes == 0 && !s.chans[0].once && s.registry == [0] && WriteFree(s)
  {
    states, actions := [INIT], [];
    states, actions := Does(states, actions, Subscribe);
    states, actions := Does(states, actions, FanBegin(e));
    states, actions := Does(states, actions, FanSend(0));
    states, actions := Does(states, actions, FanEnd(0));
  }

  /** And so it goes: a consumer that subscribes, is sent an event, receives and closes has that event,
      and its channel has been closed once; one that is still subscribed at the shutdown is closed then. */
  lemma EventIsReceived(e: Event) returns (states: seq<State>, actions: seq<Action>)
    ensures Run(states, actions)
    ensures var s := states[|states| - 1];
      && |s.chans| == 2 && s.chans[0].received == [e] && s.chans[0].buffer == []
      && s.chans[0].closes == 1 && s.chans[1].closes == 1 && s.registry == []
  {
    states, actions := EventIsSent(e);
    states, actions := Does(states, actions, Receive(0));
    states, actions := Does(states, actions, CloseSubscription(0));
    states, actions := Does(states, actions, Subscribe);
    states, actions := Does(states, actions, CloseAll);
  }
}
