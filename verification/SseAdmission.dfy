/** Admission and cleanup of dashboard clients in HandleSSE (web/broker/broker.go). The counter and
    the client map are changed in separate atomic steps by any number of handlers at once. */
module SseAdmission {

  /** Where a handler stands: admitted but not registered; about to count itself out again, refused
      or for want of a flusher; serving a registered client; counted out, with the client still in
      the map. */
  datatype Stage = Counted | Refused | Unsupported | Serving | Leaving

  datatype State = State(sseCount: int, stage: map<nat, Stage>, clients: set<nat>)

  datatype Action =
    | Enter(h: nat)
    | Refuse(h: nat)
    | NoFlusher(h: nat)
    | GiveUp(h: nat)
    | Insert(h: nat)
    | CountOut(h: nat)
    | Delete(h: nat)

  const INIT := State(0, map[], {})

  predicate At(s: State, h: nat, stage: Stage) {
    h in s.stage && s.stage[h] == stage
  }

  /** Between the increment and the decrement. */
  function Inside(s: State): set<nat> {
    set h | h in s.stage && !s.stage[h].Leaving?
  }

  /** Inside, and not refused. */
  function Admitted(s: State): set<nat> {
    set h | h in s.stage && !s.stage[h].Leaving? && !s.stage[h].Refused?
  }

  /** Between the decrement and the deletion from the map. */
  function Departing(s: State): set<nat> {
    set h | h in s.stage && s.stage[h].Leaving?
  }

  predicate Enabled(s: State, a: Action) {
    match a
    case Enter(h) => h !in s.stage
    case Refuse(h) => At(s, h, Refused)
    case NoFlusher(h) => At(s, h, Counted)
    case GiveUp(h) => At(s, h, Unsupported)
    case Insert(h) => At(s, h, Counted)
    case CountOut(h) => At(s, h, Serving)
    case Delete(h) => At(s, h, Leaving)
  }

  function Next(s: State, a: Action, maxClients: int): State
    requires Enabled(s, a)
  {
    match a
    case Enter(h) =>
      State(s.sseCount + 1, s.stage[h := if s.sseCount + 1 > maxClients then Refused else Counted], s.clients)
    case Refuse(h) => State(s.sseCount - 1, s.stage - {h}, s.clients)
    case NoFlusher(h) => s.(stage := s.stage[h := Unsupported])
    case GiveUp(h) => State(s.sseCount - 1, s.stage - {h}, s.clients)
    case Insert(h) => s.(stage := s.stage[h := Serving], clients := s.clients + {h})
    case CountOut(h) => State(s.sseCount - 1, s.stage[h := Leaving], s.clients)
    case Delete(h) => s.(stage := s.stage - {h}, clients := s.clients - {h})
  }

  ghost predicate CountsOk(s: State, maxClients: int) {
    s.sseCount == |Inside(s)| && |Admitted(s)| <= maxClients
  }

  ghost predicate ClientsOk(s: State) {
    forall h :: h in s.clients <==> At(s, h, Serving) || At(s, h, Leaving)
  }

  /** How the two sets that are counted change. */
  lemma SetsNext(s: State, a: Action, maxClients: int)
    requires Enabled(s, a)
    ensures var t := Next(s, a, maxClients);
      match a
      case Enter(h) => Inside(t) == Inside(s) + {h} && h !in Inside(s)
        && Admitted(t) == if s.sseCount + 1 > maxClients then Admitted(s) else Admitted(s) + {h}
      case Refuse(h) => Inside(t) == Inside(s) - {h} && h in Inside(s) && Admitted(t) == Admitted(s)
      case GiveUp(h) => Inside(t) == Inside(s) - {h} && h in Inside(s) && Admitted(t) == Admitted(s) - {h}
      case CountOut(h) => Inside(t) == Inside(s) - {h} && h in Inside(s) && Admitted(t) == Admitted(s) - {h}
      case _ => Inside(t) == Inside(s) && Admitted(t) == Admitted(s)
  {
  }

  lemma ClientsKept(s: State, a: Action, maxClients: int)
    requires ClientsOk(s) && Enabled(s, a)
    ensures ClientsOk(Next(s, a, maxClients))
  {
  }

  lemma CountsKept(s: State, a: Action, maxClients: int)
    requires CountsOk(s, maxClients) && Enabled(s, a)
    ensures CountsOk(Next(s, a, maxClients), maxClients)
  {
    var t := Next(s, a, maxClients);
    SetsNext(s, a, maxClients);
    CountsFollow(Inside(s), Admitted(s), Inside(t), Admitted(t));
  }

  /** A set of admitted handlers only grows together with the set inside. */
  lemma CountsFollow(inside: set<nat>, admitted: set<nat>, inside': set<nat>, admitted': set<nat>)
    requires admitted' <= inside'
    ensures |admitted'| <= |inside'|
    ensures admitted' <= admitted ==> |admitted'| <= |admitted|
    ensures forall h | h in inside && inside' == inside - {h} :: |inside'| == |inside| - 1
    ensures forall h | h !in inside && inside' == inside + {h} :: |inside'| == |inside| + 1
  {
    SubsetSize(admitted', inside');
    if admitted' <= admitted {
      SubsetSize(admitted', admitted);
    }
  }

  lemma {:induction false} SubsetSize(a: set<nat>, b: set<nat>)
    requires a <= b
    ensures |a| <= |b|
    decreases a
  {
    if a == {} {
    } else {
      var x :| x in a;
      SubsetSize(a - {x}, b - {x});
    }
  }

  ghost predicate Run(states: seq<State>, actions: seq<Action>, maxClients: int) {
    && |states| == |actions| + 1
    && states[0] == INIT
    && forall i | 0 <= i < |actions| ::
         Enabled(states[i], actions[i]) && states[i + 1] == Next(states[i], actions[i], maxClients)
  }

  lemma {:induction false} RunInv(states: seq<State>, actions: seq<Action>, maxClients: nat, i: nat)
    requires Run(states, actions, maxClients) && i < |states|
    ensures CountsOk(states[i], maxClients) && ClientsOk(states[i])
    decreases i
  {
    if i == 0 {
    } else {
      RunInv(states, actions, maxClients, i - 1);
      CountsKept(states[i - 1], actions[i - 1], maxClients);
      ClientsKept(states[i - 1], actions[i - 1], maxClients);
    }
  }

  /** In every interleaving the counter is the number of handlers between their increment and their
      decrement; the admitted among them never exceed the limit; the map exceeds it by no more than
      the handlers caught between decrement and deletion; at rest both are empty. */
  lemma AdmissionBounds(states: seq<State>, actions: seq<Action>, maxClients: nat, i: nat)
    requires Run(states, actions, maxClients) && i < |states|
    ensures var s := states[i];
      && s.sseCount == |Inside(s)|
      && |Admitted(s)| <= maxClients
      && |s.clients| <= maxClients + |Departing(s)|
      && (s.stage == map[] ==> s.sseCount == 0 && s.clients == {})
  {
    RunInv(states, actions, maxClients, i);
    var s := states[i];
    var serving := s.clients - Departing(s);
    assert s.clients == serving + Departing(s);
    assert serving !! Departing(s);
    SubsetSize(serving, Admitted(s));
  }

  /** A handler that was refused, or had no flusher, never has a client in the map, as long as it has not
      entered anew. */
  lemma {:induction false} TurnedAwayIsNoClient(
    states: seq<State>, actions: seq<Action>, maxClients: nat, i: nat, j: nat, h: nat)
    requires Run(states, actions, maxClients) && i < j < |states|
    requires actions[i] == NoFlusher(h) || (actions[i] == Enter(h) && |Inside(states[i])| >= maxClients)
    requires forall n | i < n < j :: actions[n] != Enter(h)
    ensures h !in states[j].clients
    ensures At(states[j], h, Refused) || At(states[j], h, Unsupported) || h !in states[j].stage
    decreases j
  {
    RunInv(states, actions, maxClients, i);
    if j == i + 1 {
    } else {
      TurnedAwayIsNoClient(states, actions, maxClients, i, j - 1, h);
    }
    RunInv(states, actions, maxClients, j);
  }

  /** A refusal is only ever issued while the counter shows the limit reached. */
  lemma RefusedOnlyWhenFull(states: seq<State>, actions: seq<Action>, maxClients: nat, i: nat, h: nat)
    requires Run(states, actions, maxClients) && i < |actions| && actions[i] == Enter(h)
    ensures At(states[i + 1], h, Refused) <==> |Inside(states[i])| >= maxClients
  {
    RunInv(states, actions, maxClients, i);
  }

  /** An action taken at the end of a run that is being built. */
  lemma Does(states: seq<State>, actions: seq<Action>, maxClients: int, a: Action)
    returns (more: seq<State>, longer: seq<Action>)
    requires Run(states, actions, maxClients) && Enabled(states[|states| - 1], a)
    ensures Run(more, longer, maxClients)
    ensures more[|more| - 1] == Next(states[|states| - 1], a, maxClients)
  {
    more, longer := states + [Next(states[|states| - 1], a, maxClients)], actions + [a];
  }

  /** The map really can exceed the limit: with room for one, a second client is registered while the
      first has been counted out and is still in the map. */
  lemma MapCanExceedLimit() returns (states: seq<State>, actions: seq<Action>)
    ensures Run(states, actions, 1)
    ensures states[|states| - 1].clients == {0, 1} && states[|states| - 1].sseCount == 1
  {
    states, actions := [INIT], [];
    states, actions := Does(states, actions, 1, Enter(0));
    states, actions := Does(states, actions, 1, Insert(0));
    states, actions := Does(states, actions, 1, CountOut(0));
    states, actions := Does(states, actions, 1, Enter(1));
    states, actions := Does(states, actions, 1, Insert(1));
  }
}
