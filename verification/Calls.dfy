/** What the calls of Lifecycle.dfy ask for, told from the calls alone: which subscription set was asked
    for last, whether a wakeup is queued, whether a call is under way. */
module Calls {
  import opened Topics
  import opened Lifecycle
  import opened Wrappers

  /** The goal of the last in-band change that was begun. */
  function LastGoal(actions: seq<Action>): Topics {
    if actions == [] then NOTHING
    else if actions[|actions| - 1].BeginInBand? then actions[|actions| - 1].goal
    else LastGoal(actions[..|actions| - 1])
  }

  /** The subscription set asked for last: what the last replacement or committed change named, less what
      was removed offline since; at first what the subscriber was made with. */
  function AskedFor(first: Topics, actions: seq<Action>): Topics {
    if actions == [] then first
    else
      var front := actions[..|actions| - 1];
      match actions[|actions| - 1]
      case Replace(desired) => desired
      case Commit => LastGoal(front)
      case RemoveOffline(less) => AskedFor(first, front).Minus(less)
      case _ => AskedFor(first, front)
  }

  /** A wakeup has been sent since `Start` last took one. */
  function TokenQueued(actions: seq<Action>): bool {
    actions != [] &&
    match actions[|actions| - 1]
    case Signal => true
    case Start(choice) => !choice.TakeToken? && TokenQueued(actions[..|actions| - 1])
    case _ => TokenQueued(actions[..|actions| - 1])
  }

  /** A call that changes the set has begun and not ended. */
  function UnderWay(actions: seq<Action>): bool {
    actions != [] &&
    match actions[|actions| - 1]
    case Replace(_) => true
    case BeginInBand(_) => true
    case Signal => false
    case Commit => false
    case Abort => false
    case _ => UnderWay(actions[..|actions| - 1])
  }

  function Cancelled(actions: seq<Action>): bool {
    actions != [] && (actions[|actions| - 1].CancelParent? || Cancelled(actions[..|actions| - 1]))
  }

  /** One step, by what the calls say. */
  ghost predicate Answers(s: State, a: Action, t: State)
    requires Enabled(s, a)
  {
    && t.desired == (match a
                     case Replace(desired) => desired
                     case Commit => s.updater.goal
                     case RemoveOffline(less) => s.desired.Minus(less)
                     case _ => s.desired)
    && (t.updater.InBand? ==>
          if a.BeginInBand? then t.updater.goal == a.goal else s.updater.InBand? && t.updater.goal == s.updater.goal)
    && (t.token <==> a.Signal? || (s.token && a != Start(TakeToken)))
    && (t.updater.Idle? <==>
          a.Signal? || a.Commit? || a.Abort? || (s.updater.Idle? && !a.Replace? && !a.BeginInBand?))
    && (t.parentDone <==> s.parentDone || a.CancelParent?) && t.queryOnly == s.queryOnly
  }

  lemma StepAnswers(s: State, a: Action)
    requires Enabled(s, a)
    ensures Answers(s, a, Next(s, a))
  {
    match a
    case Start(choice) =>
    case _ =>
  }

  /** The desired set is what was asked for last; a token is queued exactly if a wakeup was sent since
      the last one was taken; and so on. No call is forgotten, and none takes effect twice. */
  lemma {:induction false} CallsAnswered(first: Topics, queryOnly: bool, actions: seq<Action>)
    requires Exec(Init(first, queryOnly), actions).Some?
    ensures var s := Exec(Init(first, queryOnly), actions).value;
      && s.desired == AskedFor(first, actions)
      && (s.updater.InBand? ==> s.updater.goal == LastGoal(actions))
      && (s.token <==> TokenQueued(actions))
      && (s.updater.Idle? <==> !UnderWay(actions))
      && (s.parentDone <==> Cancelled(actions)) && s.queryOnly == queryOnly
    decreases |actions|
  {
    if actions == [] {
    } else {
      var front, last := actions[..|actions| - 1], actions[|actions| - 1];
      CallsAnswered(first, queryOnly, front);
      StepAnswers(Exec(Init(first, queryOnly), front).value, last);
    }
  }

  /** What is asked for stays so while nothing else is asked for. */
  lemma {:induction false} LastReplaceCounts(first: Topics, front: seq<Action>, desired: Topics, more: seq<Action>)
    requires forall a | a in more :: !a.Replace? && !a.Commit? && !a.RemoveOffline?
    ensures AskedFor(first, front + [Replace(desired)] + more) == desired
    decreases |more|
  {
    var all := front + [Replace(desired)] + more;
    if more == [] {
      assert all == front + [Replace(desired)];
    } else {
      var less := more[..|more| - 1];
      assert all[..|all| - 1] == front + [Replace(desired)] + less;
      assert more[|more| - 1] in more && forall a | a in less :: a in more;
      LastReplaceCounts(first, front, desired, less);
    }
  }

  /** Among changes that bounce the connection nothing is lost: between them, the node of an undisturbed
      connection delivers what was asked for last, and nothing else but the placeholder, and a parked
      `Start` has its wakeup if there are types to connect for. */
  lemma SlowPathDeliversAskedFor(first: Topics, queryOnly: bool, actions: seq<Action>)
    requires Exec(Init(first, queryOnly), actions).Some?
    requires forall a | a in actions :: !a.Commit? && !a.RemoveOffline?
    ensures var s, asked := Exec(Init(first, queryOnly), actions).value, AskedFor(first, actions);
      !UnderWay(actions) ==>
        && (s.pc.Parked? && asked.types != {} ==> s.token)
        && (Live(s.pc) && !Done(s) ==> asked.Within(s.told) && s.told.Within(asked.Plus(PLACEHOLDER_ONLY)))
  {
    CallsAnswered(first, queryOnly, actions);
    NoLostSlowPathChange(first, queryOnly, actions);
  }

  /** Once the changes of a run stop and none of them was lost, and as soon as dialling and the handshake
      go through, `Start` has within 25 of its own steps an undisturbed open connection whose node
      delivers what was asked for last, and nothing else but the placeholder. */
  lemma DeliversAskedFor(first: Topics, queryOnly: bool, actions: seq<Action>,
                         choices: seq<Choice>, states: seq<State>) returns (k: nat)
    requires Exec(Init(first, queryOnly), actions).Some? && !UnderWay(actions) && !Cancelled(actions)
    requires NoAdditionCrosses(Init(first, queryOnly), actions) && NoRemovalCrosses(Init(first, queryOnly), actions)
    requires AskedFor(first, actions).types != {} || queryOnly
    requires |states| == |choices| + 1 && states[0] == Exec(Init(first, queryOnly), actions).value
    requires |choices| >= 25 && forall i | 0 <= i < |choices| ::
      GoesThrough(states[i], choices[i]) && states[i + 1] == StartNext(states[i], choices[i])
    ensures k <= 25 && k < |states| && CaughtUp(states[k])
    ensures var asked := AskedFor(first, actions);
      asked.Within(states[k].told) && states[k].told.Within(asked.Plus(PLACEHOLDER_ONLY))
  {
    var s := states[0];
    CallsAnswered(first, queryOnly, actions);
    ExecInv(first, queryOnly, actions);
    NothingMissing(Init(first, queryOnly), actions);
    NoSurplus(Init(first, queryOnly), actions);
    LagBounded(s);
    k := CatchesUp(s, choices, states);
  }

  lemma LagBounded(s: State)
    ensures Lag(s) <= 25
  {
  }

  /** A cancelled context shuts `Start` down: after it, `Start` has at most 22 more steps, and one of them
      until it has returned. */
  lemma CancelShutsDown(first: Topics, queryOnly: bool, actions: seq<Action>, more: seq<Action>)
    requires Exec(Init(first, queryOnly), actions).Some? && Cancelled(actions)
    requires Exec(Exec(Init(first, queryOnly), actions).value, more).Some?
    ensures var s := Exec(Exec(Init(first, queryOnly), actions).value, more).value;
      StartSteps(more) <= 22 && (s.pc.Returned? || exists choice :: StartEnabled(s, choice))
  {
    CallsAnswered(first, queryOnly, actions);
    var s := Exec(Init(first, queryOnly), actions).value;
    ShutdownBounded(s, more);
    var t := Exec(s, more).value;
    if !t.pc.Returned? {
      ShutdownNeverBlocks(t);
    }
  }

  lemma ServingHasContext(first: Topics, queryOnly: bool, actions: seq<Action>, s: State)
    requires Exec(Init(first, queryOnly), actions) == Some(s) && s.pc.Serve?
    ensures s.connCancel == Some(s.generation)
  {
    ExecInv(first, queryOnly, actions);
  }

  /** A call that goes through a new handshake can run to its end while a connection serves. */
  lemma Bounces(start: State, actions: seq<Action>, s: State, goal: Topics) returns (more: seq<Action>, t: State)
    requires Exec(start, actions) == Some(s)
    requires s.pc.Serve? && s.updater.Idle? && s.connCancel == Some(s.generation)
    ensures Exec(start, more) == Some(t)
    ensures t.pc.Serve? && t.generation == s.generation && t.desired == goal && t.updater.Idle?
    ensures t.cancelled == s.cancelled + {s.generation}
    ensures t.queryOnly == s.queryOnly && t.parentDone == s.parentDone
  {
    more, t := Does(start, actions, s, Replace(goal));
    more, t := Does(start, more, t, CancelCaptured);
    more, t := Does(start, more, t, Signal);
  }

  /** A change through a new handshake can be served: for any two sets with types there is a run that
      replaces the one by the other and ends with its node delivering the new one. */
  lemma ReplaceCanBeServed(before: Topics, goal: Topics) returns (actions: seq<Action>, s: State)
    requires before.types != {} && goal.types != {}
    ensures Exec(Init(before, false), actions) == Some(s)
    ensures s.pc.Serve? && s.updater.Idle? && !Done(s) && s.told == goal && AskedFor(before, actions) == goal
  {
    var start := Init(before, false);
    actions, s := Connects(start, [], start);
    ServingHasContext(before, false, actions, s);
    actions, s := Bounces(start, actions, s, goal);
    actions, s := Drops(start, actions, s);
    actions, s := Connects(start, actions, s);
    DesiredIsAskedFor(before, false, actions, s);
  }

  lemma DesiredIsAskedFor(first: Topics, queryOnly: bool, actions: seq<Action>, s: State)
    requires Exec(Init(first, queryOnly), actions) == Some(s)
    ensures s.desired == AskedFor(first, actions)
  {
    CallsAnswered(first, queryOnly, actions);
  }
}
