/** Changing what is subscribed to while connected: subscriber/subscription.go. */
module Subscriptions {
  import opened Lists
  import opened Topics
  import opened Wrappers

  datatype Request =
    | Subscribe(types: seq<string>, addresses: seq<string>)
    | Unsubscribe(types: seq<string>, addresses: seq<string>)

  datatype Reply = Acked | NotConnected | Failed

  // ----- The node -----

  /** How a node reads an unsubscribe that names types and addresses together. The source calls
      that ambiguous, so everything below holds for every reading. */
  type Reading = (Topics, Request) -> Topics

  /** What the node delivers after acknowledging `r`: subscribing adds, and unsubscribing in one
      dimension takes away in that dimension. */
  ghost function Applied(mixed: Reading, node: Topics, r: Request): Topics {
    match r
    case Subscribe(types, addresses) => node.Plus(Listed(types, addresses))
    case Unsubscribe(types, addresses) =>
      if types == [] || addresses == [] then node.Minus(Listed(types, addresses)) else mixed(node, r)
  }

  ghost function Replay(mixed: Reading, node: Topics, requests: seq<Request>): Topics {
    if requests == [] then node
    else Applied(mixed, Replay(mixed, node, requests[..|requests| - 1]), requests[|requests| - 1])
  }

  // ----- The staged change from one subscription set to another -----

  function Additions(oldT: seq<string>, oldA: seq<string>, newT: seq<string>, newA: seq<string>): (r: seq<Request>)
    ensures |r| <= 1
  {
    if Without(newT, oldT) != [] || Without(newA, oldA) != [] then [Subscribe(newT, newA)] else []
  }

  function AddressRemovals(oldA: seq<string>, newA: seq<string>): (r: seq<Request>)
    ensures |r| <= 1
  {
    if Without(oldA, newA) != [] then [Unsubscribe([], Without(oldA, newA))] else []
  }

  function TypeRemovals(oldT: seq<string>, newT: seq<string>): (r: seq<Request>)
    ensures |r| <= 1
  {
    if Without(oldT, newT) != [] then [Unsubscribe(Without(oldT, newT), [])] else []
  }

  function Plan(oldT: seq<string>, oldA: seq<string>, newT: seq<string>, newA: seq<string>): seq<Request> {
    Additions(oldT, oldA, newT, newA) + AddressRemovals(oldA, newA) + TypeRemovals(oldT, newT)
  }

  /** How many requests, in order, are acknowledged before the first that is not. */
  function AckedPrefix(plan: seq<Request>, answer: Request -> Reply): (n: nat)
    ensures n <= |plan|
  {
    if plan == [] || answer(plan[0]) != Acked then 0 else 1 + AckedPrefix(plan[1..], answer)
  }

  lemma {:induction false} AckedPrefixStops(plan: seq<Request>, answer: Request -> Reply)
    ensures var n := AckedPrefix(plan, answer);
      && (forall i | 0 <= i < n :: answer(plan[i]) == Acked)
      && (n < |plan| ==> answer(plan[n]) != Acked)
    decreases |plan|
  {
    if plan == [] || answer(plan[0]) != Acked {
    } else {
      AckedPrefixStops(plan[1..], answer);
      assert forall i | 0 < i < |plan| :: plan[i] == plan[1..][i - 1];
    }
  }

  lemma AckedPrefixIs(plan: seq<Request>, answer: Request -> Reply, n: nat)
    requires n <= |plan| && forall i | 0 <= i < n :: answer(plan[i]) == Acked
    requires n < |plan| ==> answer(plan[n]) != Acked
    ensures AckedPrefix(plan, answer) == n
  {
    AckedPrefixStops(plan, answer);
  }

  lemma {:induction false} ReplayConcat(mixed: Reading, node: Topics, a: seq<Request>, b: seq<Request>)
    ensures Replay(mixed, node, a + b) == Replay(mixed, Replay(mixed, node, a), b)
    decreases |b|
  {
    if b == [] {
      assert a + b == a;
    } else {
      assert (a + b)[..|a + b| - 1] == a + b[..|b| - 1];
      ReplayConcat(mixed, node, a, b[..|b| - 1]);
    }
  }

  lemma AdditionsUnite(
    mixed: Reading, node: Topics, oldT: seq<string>, oldA: seq<string>, newT: seq<string>, newA: seq<string>)
    requires Elements(oldT) <= node.types && node.addresses == Elements(oldA)
    ensures Replay(mixed, node, Additions(oldT, oldA, newT, newA)) == node.Plus(Listed(newT, newA))
  {
    WithoutElements(newT, oldT);
    WithoutElements(newA, oldA);
  }

  lemma AddressesGo(mixed: Reading, types: set<string>, oldA: seq<string>, newA: seq<string>)
    ensures Replay(mixed, Topics(types, Elements(oldA) + Elements(newA)), AddressRemovals(oldA, newA))
         == Topics(types, Elements(newA))
  {
    WithoutElements(oldA, newA);
    ElementsEmpty<string>([]);
  }

  lemma TypesGo(mixed: Reading, types: set<string>, oldT: seq<string>, newT: seq<string>, addresses: set<string>)
    ensures Replay(mixed, Topics(types, addresses), TypeRemovals(oldT, newT))
         == Topics(types - (Elements(oldT) - Elements(newT)), addresses)
  {
    WithoutElements(oldT, newT);
    ElementsEmpty<string>([]);
  }

  /** What each group of requests leaves, on a node that delivers the old set and perhaps further types. */
  lemma GroupsReplayed(
    mixed: Reading, node: Topics, oldT: seq<string>, oldA: seq<string>, newT: seq<string>, newA: seq<string>)
    requires Elements(oldT) <= node.types && node.addresses == Elements(oldA)
    ensures var one, two := Additions(oldT, oldA, newT, newA), AddressRemovals(oldA, newA);
      var three, types := TypeRemovals(oldT, newT), node.types + Elements(newT);
      && Replay(mixed, node, one) == Topics(types, Elements(oldA) + Elements(newA))
      && Replay(mixed, node, one + two) == Topics(types, Elements(newA))
      && Replay(mixed, node, one + two + three)
         == Topics(types - (Elements(oldT) - Elements(newT)), Elements(newA))
  {
    var one, two, three := Additions(oldT, oldA, newT, newA), AddressRemovals(oldA, newA), TypeRemovals(oldT, newT);
    ReplayConcat(mixed, node, one, two);
    ReplayConcat(mixed, node, one + two, three);
    AdditionsUnite(mixed, node, oldT, oldA, newT, newA);
    AddressesGo(mixed, node.types + Elements(newT), oldA, newA);
    TypesGo(mixed, node.types + Elements(newT), oldT, newT, Elements(newA));
  }

  /** What all stages together make of such a node: the new set, and of the further types those that the
      old set did not name. */
  lemma PlanFrom(
    mixed: Reading, node: Topics, oldT: seq<string>, oldA: seq<string>, newT: seq<string>, newA: seq<string>)
    requires Elements(oldT) <= node.types && node.addresses == Elements(oldA)
    ensures Replay(mixed, node, Plan(oldT, oldA, newT, newA))
         == Topics((node.types + Elements(newT)) - (Elements(oldT) - Elements(newT)), Elements(newA))
  {
    GroupsReplayed(mixed, node, oldT, oldA, newT, newA);
  }

  /** With at most one request a group, every prefix ends where a group ends. */
  lemma PrefixEndsGroup(one: seq<Request>, two: seq<Request>, three: seq<Request>, k: nat)
    requires |one| <= 1 && |two| <= 1 && |three| <= 1 && k <= |one + two + three|
    ensures var prefix := (one + two + three)[..k];
      prefix == [] || prefix == one || prefix == one + two || prefix == one + two + three
  {
    var prefix := (one + two + three)[..k];
    if k == 0 {
    } else if k <= |one| {
      assert prefix == one;
    } else if k <= |one| + |two| {
      assert prefix == one + two;
    } else {
      assert prefix == one + two + three;
    }
  }

  /** Make before break: after any number of acknowledged stages the node delivers at least what both
      sets share and at most what either names; after the last stage it delivers the new set. */
  lemma PlanStages(mixed: Reading, oldT: seq<string>, oldA: seq<string>, newT: seq<string>, newA: seq<string>, k: nat)
    requires k <= |Plan(oldT, oldA, newT, newA)|
    ensures var before, after := Listed(oldT, oldA), Listed(newT, newA);
      var node := Replay(mixed, before, Plan(oldT, oldA, newT, newA)[..k]);
      && before.Common(after).Within(node) && node.Within(before.Plus(after))
      && (k == |Plan(oldT, oldA, newT, newA)| ==> node == after)
  {
    var before, plan := Listed(oldT, oldA), Plan(oldT, oldA, newT, newA);
    GroupsReplayed(mixed, before, oldT, oldA, newT, newA);
    PrefixEndsGroup(Additions(oldT, oldA, newT, newA), AddressRemovals(oldA, newA), TypeRemovals(oldT, newT), k);
    if k == |plan| {
      assert plan[..k] == plan;
    }
  }

  lemma ReplayOne(mixed: Reading, node: Topics, requests: seq<Request>, k: nat)
    requires 0 < k <= |requests|
    ensures Replay(mixed, node, requests[..k])
         == Applied(mixed, Replay(mixed, node, requests[..k - 1]), requests[k - 1])
  {
    assert requests[..k][..k - 1] == requests[..k - 1];
  }

  /** When every stage is acknowledged, the node delivers exactly what was asked for. */
  lemma PlanConverges(mixed: Reading, oldT: seq<string>, oldA: seq<string>, newT: seq<string>, newA: seq<string>)
    ensures Replay(mixed, Listed(oldT, oldA), Plan(oldT, oldA, newT, newA)) == Listed(newT, newA)
  {
    PlanFrom(mixed, Listed(oldT, oldA), oldT, oldA, newT, newA);
  }

  /** Nothing is sent exactly when both sets stay as they are. */
  lemma PlanEmptyIff(oldT: seq<string>, oldA: seq<string>, newT: seq<string>, newA: seq<string>)
    ensures Plan(oldT, oldA, newT, newA) == [] <==> Listed(oldT, oldA) == Listed(newT, newA)
  {
    WithoutElements(newT, oldT);
    WithoutElements(newA, oldA);
    WithoutElements(oldT, newT);
    WithoutElements(oldA, newA);
  }

  /** The stage that adds comes first and carries the whole new set; the stages that take away name
      one dimension each, addresses before types, and nothing that is still wanted. */
  lemma PlanShape(oldT: seq<string>, oldA: seq<string>, newT: seq<string>, newA: seq<string>, i: nat)
    requires i < |Plan(oldT, oldA, newT, newA)|
    ensures var plan := Plan(oldT, oldA, newT, newA); var r := plan[i];
      if r.Subscribe? then i == 0 && r == Subscribe(newT, newA)
      else
        && (r.types == []) != (r.addresses == [])
        && (r.types != [] ==> i == |plan| - 1)
        && Elements(r.types) * Elements(newT) == {} && Elements(r.addresses) * Elements(newA) == {}
  {
    var one, two := Additions(oldT, oldA, newT, newA), AddressRemovals(oldA, newA);
    if |one| <= i < |one| + |two| {
      WithoutElements(oldA, newA);
    } else if |one| + |two| <= i {
      WithoutElements(oldT, newT);
    }
  }

  // ----- A session of acknowledged operations -----

  datatype Op =
    | Add(types: seq<string>, addresses: seq<string>)
    | Drop(types: seq<string>, addresses: seq<string>)
    | Change(types: seq<string>, addresses: seq<string>)

  /** What the subscriber believes and what the node delivers. */
  datatype Session = Session(types: seq<string>, addresses: seq<string>, node: Topics)

  ghost predicate Agrees(s: Session) {
    s.node == Listed(s.types, s.addresses)
  }

  ghost function Perform(mixed: Reading, s: Session, op: Op): Session {
    match op
    case Add(types, addresses) =>
      Session(Merged(s.types, types), Merged(s.addresses, addresses),
              Applied(mixed, s.node, Subscribe(types, addresses)))
    case Drop(types, addresses) =>
      Session(Without(s.types, types), Without(s.addresses, addresses),
              Applied(mixed, s.node, Unsubscribe(types, addresses)))
    case Change(types, addresses) =>
      Session(types, addresses, Replay(mixed, s.node, Plan(s.types, s.addresses, types, addresses)))
  }

  ghost function PerformAll(mixed: Reading, s: Session, ops: seq<Op>): Session {
    if ops == [] then s
    else Perform(mixed, PerformAll(mixed, s, ops[..|ops| - 1]), ops[|ops| - 1])
  }

  predicate OneDimension(op: Op) {
    op.Drop? ==> op.types == [] || op.addresses == []
  }

  /** The same, except that the node may deliver types of `residue` that nobody asked for. */
  ghost predicate AgreesUpTo(s: Session, residue: set<string>) {
    s.node.addresses == Elements(s.addresses) && Elements(s.types) <= s.node.types <= Elements(s.types) + residue
  }

  lemma AgreementKept(mixed: Reading, s: Session, op: Op, residue: set<string>)
    requires AgreesUpTo(s, residue) && OneDimension(op)
    ensures AgreesUpTo(Perform(mixed, s, op), residue)
  {
    match op {
      case Add(types, addresses) =>
        MergedElements(s.types, types);
        MergedElements(s.addresses, addresses);
      case Drop(types, addresses) =>
        WithoutElements(s.types, types);
        WithoutElements(s.addresses, addresses);
      case Change(types, addresses) =>
        PlanFrom(mixed, s.node, s.types, s.addresses, types, addresses);
    }
  }

  /** Over any number of acknowledged operations in one session what the node delivers beyond what
      `Types()` and `Addresses()` report never grows, and it never lacks any of that. */
  lemma {:induction false} LongRunAgreement(mixed: Reading, s: Session, ops: seq<Op>, residue: set<string>)
    requires AgreesUpTo(s, residue) && forall op | op in ops :: OneDimension(op)
    ensures AgreesUpTo(PerformAll(mixed, s, ops), residue)
    decreases |ops|
  {
    if ops == [] {
    } else {
      LongRunAgreement(mixed, s, ops[..|ops| - 1], residue);
      AgreementKept(mixed, PerformAll(mixed, s, ops[..|ops| - 1]), ops[|ops| - 1], residue);
    }
  }

  /** So, from the handshake on, the node keeps delivering exactly what `Types()` and `Addresses()`
      report; where the handshake had to carry the placeholder type, that one type may remain. */
  lemma SessionAgreement(mixed: Reading, types: seq<string>, addresses: seq<string>, ops: seq<Op>)
    requires forall op | op in ops :: OneDimension(op)
    ensures var s := PerformAll(mixed, Session(types, addresses, Handshake(Listed(types, addresses))), ops);
      if types != [] then Agrees(s) else AgreesUpTo(s, {PLACEHOLDER})
  {
    ElementsEmpty(types);
    LongRunAgreement(mixed, Session(types, addresses, Handshake(Listed(types, addresses))), ops,
                     if types != [] then {} else {PLACEHOLDER});
  }

  /** The node's reading that the source warns of: a mixed unsubscribe drops the types entirely and
      leaves the addresses alone. */
  ghost function TypesOnly(node: Topics, r: Request): Topics {
    Topics(node.types - Elements(r.types), node.addresses)
  }

  /** RemoveSubscriptions sends types and addresses in one request. Under that reading it keeps the
      agreement exactly when the call names one dimension only, or no address that is subscribed. */
  lemma MixedDropAgreesIff(s: Session, types: seq<string>, addresses: seq<string>)
    requires Agrees(s)
    ensures Agrees(Perform((node, r) => TypesOnly(node, r), s, Drop(types, addresses))) <==>
      (types == [] || addresses == [] || Elements(addresses) * Elements(s.addresses) == {})
  {
    WithoutElements(s.types, types);
    WithoutElements(s.addresses, addresses);
    DisjointIff(Elements(s.addresses), Elements(addresses));
    ElementsEmpty<string>([]);
    assert Elements<string>([]) == {};
  }

  lemma DisjointIff(a: set<string>, b: set<string>)
    ensures a - b == a <==> b * a == {}
  {
    if a - b == a {
      forall x | x in b ensures x !in a {
        assert x !in a - b;
      }
    } else {
      var x :| x in a && x !in a - b;
      assert x in b * a;
    }
  }

  // ----- The subscriber -----

  /** `after` is `before` followed by the items of `more` that are new, once each. */
  ghost predicate Appended(before: seq<string>, more: seq<string>, after: seq<string>) {
    && before <= after
    && Distinct(after[|before|..])
    && (forall x :: x in after[|before|..] <==> x in more && x !in before)
  }

  lemma MergedIsAppended(before: seq<string>, more: seq<string>)
    ensures Appended(before, more, Merged(before, more))
  {
    var after := Merged(before, more);
    var from := MergedAppendsNewOnce(before, more);
    MergedElements(before, more);
    assert after == before + after[|before|..];
    forall x ensures x in after[|before|..] <==> x in more && x !in before {
      assert x in after <==> x in Elements(after);
      assert x in Elements(after) <==> x in Elements(before) || x in Elements(more);
    }
  }

  class Subscriber {
    var types: seq<string>
    var addresses: seq<string>
    var connected: bool
    var connCancel: Option<nat>
    var cancelled: set<nat>
    var reconnectToken: bool
    ghost var node: Topics
    ghost const mixed: Reading

    constructor (types: seq<string>, addresses: seq<string>, connected: bool, connCancel: Option<nat>,
                 ghost node: Topics, ghost mixed: Reading)
      ensures View() == Session(types, addresses, node) && this.mixed == mixed
      ensures this.connected == connected && this.connCancel == connCancel && Quiet({}, false)
    {
      this.types, this.addresses, this.connected := types, addresses, connected;
      this.connCancel, this.cancelled, this.reconnectToken := connCancel, {}, false;
      this.node, this.mixed := node, mixed;
    }

    ghost function View(): Session
      reads this
    {
      Session(types, addresses, node)
    }

    /** No bounce since the given state. */
    ghost predicate Quiet(cancelledBefore: set<nat>, tokenBefore: bool)
      reads this
    {
      cancelled == cancelledBefore && reconnectToken == tokenBefore
    }

    /** The connection context that was current is cancelled and a wakeup is queued. */
    ghost predicate Bounced(cancelledBefore: set<nat>, current: Option<nat>)
      reads this
    {
      cancelled == (if current.Some? then cancelledBefore + {current.value} else cancelledBefore)
      && reconnectToken
    }

    /** `cancel()` on the captured context, then a non-blocking send on `reconnectCh`. */
    method Bounce()
      modifies this`cancelled, this`reconnectToken
      ensures Bounced(old(cancelled), connCancel)
    {
      if connCancel.Some? {
        cancelled := cancelled + {connCancel.value};
      }
      reconnectToken := true;
    }

    /** The node has acted on the acknowledged start of `plan`, and `ok` tells whether that is all. */
    ghost predicate Settled(start: Topics, plan: seq<Request>, answer: Request -> Reply, ok: bool)
      reads this
    {
      var n := AckedPrefix(plan, answer);
      node == Replay(mixed, start, plan[..n]) && (ok <==> n == |plan|)
    }

    /** One stage: `r` is sent when there is something to say and nothing has failed before. */
    method Stage(wanted: bool, r: Request, answer: Request -> Reply, before: bool,
                 ghost start: Topics, ghost done: seq<Request>, ghost stage: seq<Request>)
      returns (ok: bool)
      requires Settled(start, done, answer, before) && stage == if wanted then [r] else []
      modifies `node
      ensures Settled(start, done + stage, answer, ok)
    {
      ok := before;
      ghost var plan := done + stage;
      ghost var n := AckedPrefix(done, answer);
      AckedPrefixStops(done, answer);
      assert plan[..n] == done[..n];
      if before && wanted {
        ok := answer(r) == Acked;
        if ok {
          node := Applied(mixed, node, r);
          ReplayOne(mixed, start, plan, n + 1);
          AckedPrefixIs(plan, answer, n + 1);
        } else {
          AckedPrefixIs(plan, answer, n);
        }
      } else {
        AckedPrefixIs(plan, answer, n);
      }
    }

    /** The in-band part of Reconfigure: three stages, stopping at the first failure. */
    method InBand(newT: seq<string>, newA: seq<string>, answer: Request -> Reply) returns (ok: bool)
      modifies `node
      ensures Settled(old(node), Plan(types, addresses, newT, newA), answer, ok)
    {
      ghost var start := node;
      ghost var one, two := Additions(types, addresses, newT, newA), AddressRemovals(addresses, newA);
      ghost var three := TypeRemovals(types, newT);
      var addT := Remove(newT, types);
      var removeT := Remove(types, newT);
      var addA := Remove(newA, addresses);
      var removeA := Remove(addresses, newA);
      assert [] + one == one;
      ok := Stage(|addT| > 0 || |addA| > 0, Subscribe(newT, newA), answer, true, start, [], one);
      ok := Stage(|removeA| > 0, Unsubscribe([], removeA), answer, ok, start, one, two);
      ok := Stage(|removeT| > 0, Unsubscribe(removeT, []), answer, ok, start, one + two, three);
    }

    method Reconfigure(newT: seq<string>, newA: seq<string>, answer: Request -> Reply)
      modifies this
      ensures types == newT && addresses == newA
      ensures connected == old(connected) && connCancel == old(connCancel)
      ensures var plan := Plan(old(types), old(addresses), newT, newA);
        var n := if old(connected) then AckedPrefix(plan, answer) else 0;
        && node == Replay(mixed, old(node), plan[..n])
        && (if old(connected) && n == |plan| then
              Quiet(old(cancelled), old(reconnectToken)) && View() == Perform(mixed, old(View()), Change(newT, newA))
            else
              Bounced(old(cancelled), old(connCancel)))
    {
      ghost var plan := Plan(types, addresses, newT, newA);
      if connected {
        var ok := InBand(newT, newA, answer);
        if ok {
          types, addresses := newT, newA;
          assert plan[..|plan|] == plan;
          return;
        }
      }
      assert plan[..0] == [];
      types, addresses := newT, newA;
      Bounce();
    }

    method AddSubscriptions(moreT: seq<string>, moreA: seq<string>, reply: Reply) returns (ok: bool)
      modifies this
      ensures connected == old(connected) && connCancel == old(connCancel)
      ensures ok == (reply != Failed)
      ensures reply == Acked ==>
        View() == Perform(mixed, old(View()), Add(moreT, moreA)) && Quiet(old(cancelled), old(reconnectToken))
      ensures reply == NotConnected ==>
        && View() == Perform(mixed, old(View()), Add(moreT, moreA)).(node := old(node))
        && Bounced(old(cancelled), connCancel)
      ensures reply == Failed ==> View() == old(View()) && Quiet(old(cancelled), old(reconnectToken))
      ensures old(types) <= types && old(addresses) <= addresses
      ensures reply != Failed ==>
        && Appended(old(types), moreT, types) && Appended(old(addresses), moreA, addresses)
    {
      MergedIsAppended(types, moreT);
      MergedIsAppended(addresses, moreA);
      if reply == Failed {
        return false;
      }
      if reply == Acked {
        node := Applied(mixed, node, Subscribe(moreT, moreA));
      }
      types := Merge(types, moreT);
      addresses := Merge(addresses, moreA);
      if reply == NotConnected {
        Bounce();
      }
      return true;
    }

    method RemoveSubscriptions(lessT: seq<string>, lessA: seq<string>, reply: Reply) returns (ok: bool)
      modifies this
      ensures connected == old(connected) && connCancel == old(connCancel)
      ensures Quiet(old(cancelled), old(reconnectToken))
      ensures ok == (reply != Failed)
      ensures reply == Acked ==> View() == Perform(mixed, old(View()), Drop(lessT, lessA))
      ensures reply == NotConnected ==>
        View() == Perform(mixed, old(View()), Drop(lessT, lessA)).(node := old(node))
      ensures reply == Failed ==> View() == old(View())
    {
      if reply == Failed {
        return false;
      }
      if reply == Acked {
        node := Applied(mixed, node, Unsubscribe(lessT, lessA));
      }
      types := Remove(types, lessT);
      addresses := Remove(addresses, lessA);
      return true;
    }
  }
}
