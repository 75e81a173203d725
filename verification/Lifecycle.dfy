/** The control loop `Start`, with `connect` (subscriber/connection.go), interleaved with calls that
    change the desired subscription set (subscriber/subscription.go). Every block under a lock, and
    every channel or context operation, is one step; dialling, writing and reading may succeed or
    fail. The calls that change the set are serialized by `reconfigureMu`, so one of them is under
    way at a time, and their number is unbounded. */
module Lifecycle {
  import opened Topics
  import opened Wrappers

  datatype Pc =
    // Start
    | Top | CheckTypes | Parked | Publish
    // connect
    | Snapshot | Dial | Activate | Handshaking | MarkUp | CallConnect | Serve | SendClose | AwaitReader
    | MarkDown | CallDisconnect
    // the deferred teardown of connect
    | ClearConn | CloseConn | FailPending
    // Start again
    | CancelContext | ClearCancel | CheckParent | Backoff | Finish | Returned

  datatype Callback = OnConnect | OnDisconnect

  /** Where the call under way stands. A bounce has captured `cancel` when it wrote the desired set.
      An in-band change has had its additions acknowledged on connection `added`, if at all, and its last
      removal on connection `removedOn`, if any; `removed` is what was taken away on that connection and
      `asked` what was taken away on any. */
  datatype Updater =
    | Idle
    | Bouncing(cancel: Option<nat>)
    | Signalling
    | InBand(goal: Topics, added: Option<nat>, removedOn: Option<nat>, removed: Topics, asked: Topics)

  /** `told` is what the node of the current connection delivers, or will once the handshake is sent.
      Three records of what went wrong: `missing` is the part of the desired set that was committed
      although the current connection was set up without it and never asked for it since; `surplus` is
      what that connection was set up with or asked for, and is not desired any more although nothing
      took it away there; `stranded` says that a change was committed while `Start` was parked,
      with nothing queued to wake it. `sockets` are the connections, by generation, that are open, `owed`
      those whose teardown has still to fail what is pending; `dismissed` have been given up
      because their context was done, and `goodbyes` have been sent a close message. */
  datatype State = State(
    pc: Pc, queryOnly: bool, parentDone: bool,
    desired: Topics, told: Topics,
    generation: nat, connCancel: Option<nat>, cancelled: set<nat>, token: bool,
    active: Option<nat>, connected: bool, trace: seq<Callback>, closes: nat,
    sockets: set<nat>, owed: set<nat>, dismissed: set<nat>, goodbyes: set<nat>,
    updater: Updater, missing: Topics, surplus: Topics, stranded: bool)

  const NOTHING := Topics({}, {})

  function Init(desired: Topics, queryOnly: bool): State {
    State(Top, queryOnly, false, desired, NOTHING, 0, None, {}, false, None, false, [], 0, {}, {}, {}, {},
          Idle, NOTHING, NOTHING, false)
  }

  /** Which way a select, or an operation that can fail, goes. */
  datatype Choice = Proceed | Fail | ContextDone | TakeToken | TimerFires

  datatype Action =
    | Start(choice: Choice)
    | CancelParent
    // a change that goes through a new handshake, and its two later steps
    | Replace(desired: Topics)
    | CancelCaptured
    | Signal
    // RemoveSubscriptions while not connected
    | RemoveOffline(less: Topics)
    // a change made on the open connection
    | BeginInBand(goal: Topics)
    | AckSubscribe(more: Topics)
    | AckUnsubscribe(less: Topics)
    | Commit
    | Abort

  /** The context of the current connection is done. */
  predicate Done(s: State) {
    s.parentDone || s.generation in s.cancelled
  }

  predicate HasTypes(s: State) {
    s.desired.types != {} || s.queryOnly
  }

  /** Between the handshake being sent and the end of the teardown. */
  predicate Open(pc: Pc) {
    (pc.MarkUp? || pc.CallConnect? || pc.Serve? || pc.SendClose? || pc.AwaitReader?
     || pc.MarkDown? || pc.CallDisconnect? || pc.ClearConn? || pc.CloseConn? || pc.FailPending?)
  }

  /** Between the copy of the desired set being taken and the end of the teardown. */
  predicate Live(pc: Pc) {
    (pc.Dial? || pc.Activate? || pc.Handshaking?) || Open(pc)
  }

  predicate StartEnabled(s: State, choice: Choice) {
    match s.pc
    case Returned => false
    case Parked => (choice.ContextDone? && s.parentDone) || (choice.TakeToken? && s.token)
    case Backoff => (choice.ContextDone? && s.parentDone) || (choice.TakeToken? && s.token) || choice.TimerFires?
    case Dial => choice.Proceed? || choice.Fail?
    case Handshaking => choice.Proceed? || choice.Fail?
    case Serve => choice.Fail? || (choice.ContextDone? && Done(s))
    case _ => choice.Proceed?
  }

  /** Where `Start` goes next. */
  function Target(s: State, choice: Choice): Pc {
    match s.pc
    case Top => if s.parentDone then Finish else CheckTypes
    case CheckTypes => if HasTypes(s) then Publish else Parked
    case Parked => if choice.ContextDone? then Finish else Top
    case Publish => Snapshot
    case Snapshot => Dial
    case Dial => if choice.Fail? then CancelContext else Activate
    case Activate => Handshaking
    case Handshaking => if choice.Fail? then ClearConn else MarkUp
    case MarkUp => CallConnect
    case CallConnect => Serve
    case Serve => if choice.Fail? then MarkDown else SendClose
    case SendClose => AwaitReader
    case AwaitReader => MarkDown
    case MarkDown => CallDisconnect
    case CallDisconnect => ClearConn
    case ClearConn => CloseConn
    case CloseConn => FailPending
    case FailPending => CancelContext
    case CancelContext => ClearCancel
    case ClearCancel => CheckParent
    case CheckParent => if s.parentDone then Finish else Backoff
    case Backoff => if choice.ContextDone? then Finish else Top
    case Finish => Returned
    case Returned => Returned
  }

  /** One step of `Start`: it moves on, and changes what the step it takes changes. */
  function StartNext(s: State, choice: Choice): State
    requires StartEnabled(s, choice)
  {
    s.(pc := Target(s, choice),
       token := if choice.TakeToken? then false else s.token,
       generation := if s.pc.Publish? then s.generation + 1 else s.generation,
       connCancel := if s.pc.Publish? then Some(s.generation + 1)
                     else if s.pc.ClearCancel? then None else s.connCancel,
       told := if s.pc.Snapshot? then Handshake(s.desired) else s.told,
       missing := if s.pc.Snapshot? then NOTHING else s.missing,
       surplus := if s.pc.Snapshot? then Handshake(s.desired).Minus(s.desired) else s.surplus,
       stranded := if s.pc.Parked? then false else s.stranded,
       active := if s.pc.Activate? then Some(s.generation) else if s.pc.ClearConn? then None else s.active,
       sockets := if s.pc.Dial? && !choice.Fail? then s.sockets + {s.generation}
                  else if s.pc.CloseConn? then s.sockets - {s.generation} else s.sockets,
       owed := if s.pc.Dial? && !choice.Fail? then s.owed + {s.generation}
               else if s.pc.FailPending? then s.owed - {s.generation} else s.owed,
       dismissed := if s.pc.Serve? && choice.ContextDone? then s.dismissed + {s.generation} else s.dismissed,
       goodbyes := if s.pc.SendClose? then s.goodbyes + {s.generation} else s.goodbyes,
       connected := if s.pc.MarkUp? then true else if s.pc.MarkDown? then false else s.connected,
       trace := if s.pc.CallConnect? then s.trace + [OnConnect]
                else if s.pc.CallDisconnect? then s.trace + [OnDisconnect] else s.trace,
       cancelled := if s.pc.CancelContext? then s.cancelled + {s.generation} else s.cancelled,
       closes := if s.pc.Finish? then s.closes + 1 else s.closes)
  }

  predicate Enabled(s: State, a: Action) {
    match a
    case Start(choice) => StartEnabled(s, choice)
    case CancelParent => true
    case Replace(desired) => s.updater.Idle? || s.updater.InBand?
    case CancelCaptured => s.updater.Bouncing?
    case Signal => s.updater.Signalling?
    case RemoveOffline(less) => s.updater.Idle?
    case BeginInBand(goal) => s.updater.Idle?
    // what is sent covers everything new in the goal, and nothing else
    case AckSubscribe(more) =>
      s.updater.InBand? && Open(s.pc) && s.updater.added.None?
      && s.updater.goal.Minus(s.desired).Within(more) && more.Within(s.updater.goal)
    // what is taken away is nothing the goal keeps
    case AckUnsubscribe(less) =>
      s.updater.InBand? && Open(s.pc) && s.updater.goal.Apart(less)
    // additions and removals have been acknowledged, unless there are none
    case Commit =>
      s.updater.InBand? && (s.updater.added.Some? || s.updater.goal.Within(s.desired))
      && s.desired.Minus(s.updater.goal).Within(s.updater.asked)
    // the one request of AddSubscriptions or RemoveSubscriptions fails
    case Abort => s.updater.InBand? && s.updater.added.None? && s.updater.removedOn.None?
  }

  /** The connection that acknowledged the additions of an in-band change is gone, and another one has
      been set up from the old desired set. */
  predicate Reconnected(s: State) {
    s.updater.InBand? && s.updater.added.Some? && Live(s.pc) && s.updater.added.value != s.generation
  }

  /** The connection that acknowledged the additions is gone, and `Start` is parked because the old
      desired set has no types. */
  predicate ParkedMeanwhile(s: State) {
    s.updater.InBand? && s.updater.added.Some? && s.pc.Parked?
  }

  /** What the change under way has taken away on the current connection. */
  function RemovedHere(s: State): Topics {
    if s.updater.InBand? && s.updater.removedOn == Some(s.generation) then s.updater.removed else NOTHING
  }

  /** What the current connection was delivering before the change and the goal does not keep. */
  function Unwanted(s: State): Topics
    requires s.updater.InBand?
  {
    s.desired.Minus(s.missing).Plus(s.surplus).Minus(s.updater.goal)
  }

  function Next(s: State, a: Action): State
    requires Enabled(s, a)
  {
    match a
    case Start(choice) => StartNext(s, choice)
    case CancelParent => s.(parentDone := true)
    case Replace(desired) => s.(desired := desired, updater := Bouncing(s.connCancel))
    case CancelCaptured =>
      s.(updater := Signalling,
         cancelled := if s.updater.cancel.Some? then s.cancelled + {s.updater.cancel.value} else s.cancelled)
    case Signal => s.(updater := Idle, token := true, stranded := false)
    case RemoveOffline(less) =>
      s.(desired := s.desired.Minus(less), missing := s.missing.Minus(less),
         surplus := if Live(s.pc) then s.surplus.Plus(s.desired.Minus(s.missing).Common(less)) else s.surplus)
    case BeginInBand(goal) => s.(updater := InBand(goal, None, None, NOTHING, NOTHING))
    case AckSubscribe(more) =>
      s.(told := s.told.Plus(more), updater := s.updater.(added := Some(s.generation)),
         missing := s.missing.Minus(more))
    case AckUnsubscribe(less) =>
      s.(told := s.told.Minus(less),
         updater := s.updater.(removedOn := Some(s.generation), removed := RemovedHere(s).Plus(less),
                               asked := s.updater.asked.Plus(less)))
    case Commit =>
      s.(desired := s.updater.goal, updater := Idle,
         missing := if Reconnected(s) then s.updater.goal.Minus(Handshake(s.desired))
                    else s.missing.Common(s.updater.goal),
         surplus := if Live(s.pc) then Unwanted(s).Minus(RemovedHere(s)) else s.surplus,
         stranded := s.stranded || (ParkedMeanwhile(s) && !s.token))
    case Abort => s.(updater := Idle)
  }

  /** The state after a whole run, if every action could be taken. */
  function Exec(s: State, actions: seq<Action>): Option<State> {
    if actions == [] then Some(s)
    else
      var before := Exec(s, actions[..|actions| - 1]);
      var last := actions[|actions| - 1];
      if before.Some? && Enabled(before.value, last) then Some(Next(before.value, last)) else None
  }

  // ----- Connection status -----

  predicate Between(pc: Pc) {
    (pc.Serve? || pc.SendClose? || pc.AwaitReader? || pc.MarkDown? || pc.CallDisconnect?)
  }

  /** Callbacks alternate, starting with OnConnect. */
  ghost predicate Alternating(trace: seq<Callback>) {
    forall i | 0 <= i < |trace| :: trace[i] == if i % 2 == 0 then OnConnect else OnDisconnect
  }

  ghost predicate StatusInv(s: State) {
    && Alternating(s.trace)
    && (|s.trace| % 2 == 1 <==> Between(s.pc))
    && (s.connected <==>
          (s.pc.CallConnect? || s.pc.Serve? || s.pc.SendClose? || s.pc.AwaitReader? || s.pc.MarkDown?))
    && s.active == if (s.pc.Handshaking? || s.pc.MarkUp? || s.pc.CallConnect? || s.pc.ClearConn?) || Between(s.pc)
                   then Some(s.generation) else None
  }

  lemma StartKeepsStatus(s: State, choice: Choice)
    requires StatusInv(s) && StartEnabled(s, choice)
    ensures StatusInv(StartNext(s, choice))
  {
  }

  lemma StatusKept(s: State, a: Action)
    requires StatusInv(s) && Enabled(s, a)
    ensures StatusInv(Next(s, a))
  {
    match a
    case Start(choice) => StartKeepsStatus(s, choice);
    case _ =>
  }

  // ----- Waking up for a new desired set -----

  /** The context of the current connection is done, or about to be cancelled by a bounce. */
  predicate Doomed(s: State) {
    Done(s) || s.updater == Bouncing(Some(s.generation))
  }

  /** What the node of the current connection lacks of the desired set is exactly `missing`, and what it
      delivers beyond it is exactly `surplus`, up to the change under way. */
  predicate Accounted(s: State) {
    match s.updater
    case InBand(goal, added, removedOn, removed, asked) =>
      && s.desired.Common(goal).Minus(s.told) == s.missing.Common(goal)
      && (added == Some(s.generation) ==> goal.Minus(s.told) == s.missing.Common(goal))
      && (removedOn.None? ==> s.desired.Minus(s.told) == s.missing)
      && s.told.Minus(goal) == Unwanted(s).Minus(RemovedHere(s))
      && (added.None? && removedOn.None? ==> s.told.Minus(s.desired) == s.surplus)
    case _ => s.desired.Minus(s.told) == s.missing && s.told.Minus(s.desired) == s.surplus
  }

  ghost predicate ContextInv(s: State) {
    && s.connCancel == (if Live(s.pc) || (s.pc.Snapshot? || s.pc.CancelContext? || s.pc.ClearCancel?)
                        then Some(s.generation) else None)
    && (s.pc.Parked? ==> !s.queryOnly)
    && (forall g | g in s.cancelled :: g <= s.generation)
    && (s.updater.Bouncing? && s.updater.cancel.Some? ==> s.updater.cancel.value <= s.generation)
    && (s.updater.InBand? && s.updater.added.Some? ==>
          s.updater.added.value <= s.generation && (s.pc.Snapshot? ==> s.updater.added.value < s.generation))
    && (s.updater.InBand? && s.updater.removedOn.Some? ==>
          s.updater.removedOn.value <= s.generation && (s.pc.Snapshot? ==> s.updater.removedOn.value < s.generation))
  }

  ghost predicate WakeInv(s: State) {
    && (Live(s.pc) ==> Doomed(s) || Accounted(s))
    && (s.pc.Parked? && s.desired.types != {} && !s.updater.Bouncing? && !s.updater.Signalling? ==>
          (s.token <==> !s.stranded))
    && (s.stranded ==> s.pc.Parked? && !s.token)
  }

  /** After a change has lost its connection, the node of the new one has been told the old set, and
      at most had things taken away that the goal does not keep. */
  ghost predicate StaleInv(s: State) {
    Live(s.pc) && s.updater.InBand? && s.updater.added.Some? && s.updater.added.value < s.generation ==>
      s.told.Within(Handshake(s.desired)) && Handshake(s.desired).Common(s.updater.goal).Within(s.told)
  }

  ghost predicate ShutdownInv(s: State) {
    && s.closes == (if s.pc.Returned? then 1 else 0)
    && (s.pc.Finish? || s.pc.Returned? ==> s.parentDone)
  }

  ghost predicate Inv(s: State) {
    StatusInv(s) && ContextInv(s) && WakeInv(s) && StaleInv(s) && ShutdownInv(s)
  }

  lemma StartKeepsContext(s: State, choice: Choice)
    requires ContextInv(s) && StartEnabled(s, choice)
    ensures ContextInv(StartNext(s, choice))
  {
  }

  lemma BounceKeepsContext(s: State, a: Action)
    requires ContextInv(s) && Enabled(s, a) && (a.Replace? || a.CancelCaptured? || a.Signal?)
    ensures ContextInv(Next(s, a))
  {
  }

  lemma AckKeepsContext(s: State, a: Action)
    requires ContextInv(s) && Enabled(s, a) && (a.AckSubscribe? || a.AckUnsubscribe?)
    ensures ContextInv(Next(s, a))
  {
  }

  lemma OthersKeepContext(s: State, a: Action)
    requires ContextInv(s) && Enabled(s, a)
    requires a.CancelParent? || a.RemoveOffline? || a.BeginInBand? || a.Commit? || a.Abort?
    ensures ContextInv(Next(s, a))
  {
  }

  lemma ContextKept(s: State, a: Action)
    requires ContextInv(s) && Enabled(s, a)
    ensures ContextInv(Next(s, a))
  {
    match a
    case Start(choice) => StartKeepsContext(s, choice);
    case Replace(_) => BounceKeepsContext(s, a);
    case CancelCaptured => BounceKeepsContext(s, a);
    case Signal => BounceKeepsContext(s, a);
    case AckSubscribe(_) => AckKeepsContext(s, a);
    case AckUnsubscribe(_) => AckKeepsContext(s, a);
    case _ => OthersKeepContext(s, a);
  }

  lemma StartKeepsWake(s: State, choice: Choice)
    requires ContextInv(s) && WakeInv(s) && StartEnabled(s, choice)
    ensures WakeInv(StartNext(s, choice))
  {
  }

  lemma CommitKeepsAccount(s: State)
    requires ContextInv(s) && WakeInv(s) && StaleInv(s) && Enabled(s, Commit)
    ensures Live(s.pc) ==> Doomed(s) || Accounted(Next(s, Commit))
  {
    var goal, t := s.updater.goal, Next(s, Commit);
    if Live(s.pc) && !Doomed(s) {
      if Reconnected(s) {
        assert goal.Minus(s.told) == goal.Minus(Handshake(s.desired));
      } else if s.updater.added.None? {
        assert goal == s.desired.Common(goal);
      }
    }
  }

  lemma AckSubscribeKeepsAccount(s: State, more: Topics)
    requires Enabled(s, AckSubscribe(more)) && Accounted(s)
    ensures Accounted(Next(s, AckSubscribe(more)))
  {
    var goal, t := s.updater.goal, Next(s, AckSubscribe(more));
    assert s.desired.Common(goal).Minus(t.told) == s.desired.Common(goal).Minus(s.told).Minus(more);
    assert s.missing.Minus(more).Common(goal) == s.missing.Common(goal).Minus(more);
    assert goal.Minus(t.told) == s.desired.Common(goal).Minus(t.told);
    assert s.desired.Minus(t.told) == s.desired.Minus(s.told).Minus(more);
    assert t.told.Minus(goal) == s.told.Minus(goal);
    assert Unwanted(t) == Unwanted(s);
  }

  lemma AckUnsubscribeKeepsAccount(s: State, less: Topics)
    requires Enabled(s, AckUnsubscribe(less)) && Accounted(s)
    ensures Accounted(Next(s, AckUnsubscribe(less)))
  {
    var goal, t := s.updater.goal, Next(s, AckUnsubscribe(less));
    assert s.desired.Common(goal).Minus(t.told) == s.desired.Common(goal).Minus(s.told);
    assert goal.Minus(t.told) == goal.Minus(s.told);
    assert t.told.Minus(goal) == s.told.Minus(goal).Minus(less);
    assert Unwanted(s).Minus(RemovedHere(s).Plus(less)) == Unwanted(s).Minus(RemovedHere(s)).Minus(less);
  }

  lemma RemoveOfflineKeepsAccount(s: State, less: Topics)
    requires Enabled(s, RemoveOffline(less)) && Live(s.pc) && Accounted(s)
    ensures Accounted(Next(s, RemoveOffline(less)))
  {
    var t := Next(s, RemoveOffline(less));
    assert t.desired.Minus(s.told) == s.desired.Minus(s.told).Minus(less);
    assert s.desired.Minus(s.missing) == s.desired.Common(s.told);
    assert s.told.Minus(t.desired) == s.told.Minus(s.desired).Plus(s.desired.Common(s.told).Common(less));
  }

  lemma BeginKeepsAccount(s: State, goal: Topics)
    requires Enabled(s, BeginInBand(goal)) && Accounted(s)
    ensures Accounted(Next(s, BeginInBand(goal)))
  {
    var t := Next(s, BeginInBand(goal));
    assert s.desired.Common(goal).Minus(s.told) == s.desired.Minus(s.told).Common(goal);
    assert s.desired.Minus(s.missing).Plus(s.surplus) == s.told;
    assert s.told.Minus(goal).Minus(NOTHING) == s.told.Minus(goal);
  }

  lemma OthersKeepAccount(s: State, a: Action)
    requires ContextInv(s) && WakeInv(s) && Enabled(s, a) && !a.Start? && !a.Commit?
    ensures Live(s.pc) ==> Doomed(Next(s, a)) || Accounted(Next(s, a))
  {
    if Live(s.pc) && Accounted(s) {
      match a
      case AckSubscribe(more) => AckSubscribeKeepsAccount(s, more);
      case AckUnsubscribe(less) => AckUnsubscribeKeepsAccount(s, less);
      case RemoveOffline(less) => RemoveOfflineKeepsAccount(s, less);
      case BeginInBand(goal) => BeginKeepsAccount(s, goal);
      case _ =>
    }
  }

  lemma WakeKept(s: State, a: Action)
    requires ContextInv(s) && WakeInv(s) && StaleInv(s) && Enabled(s, a)
    ensures WakeInv(Next(s, a))
  {
    match a
    case Start(choice) => StartKeepsWake(s, choice);
    case Commit => CommitKeepsAccount(s);
    case _ => OthersKeepAccount(s, a);
  }

  lemma StartKeepsStale(s: State, choice: Choice)
    requires ContextInv(s) && StaleInv(s) && StartEnabled(s, choice)
    ensures StaleInv(StartNext(s, choice))
  {
  }

  lemma StaleKept(s: State, a: Action)
    requires ContextInv(s) && StaleInv(s) && Enabled(s, a)
    ensures StaleInv(Next(s, a))
  {
    match a
    case Start(choice) => StartKeepsStale(s, choice);
    case _ =>
  }

  lemma StartKeepsShutdown(s: State, choice: Choice)
    requires ShutdownInv(s) && StartEnabled(s, choice)
    ensures ShutdownInv(StartNext(s, choice))
  {
  }

  lemma ShutdownKept(s: State, a: Action)
    requires ShutdownInv(s) && Enabled(s, a)
    ensures ShutdownInv(Next(s, a))
  {
    match a
    case Start(choice) => StartKeepsShutdown(s, choice);
    case _ =>
  }

  lemma {:induction false} ExecInv(desired: Topics, queryOnly: bool, actions: seq<Action>)
    requires Exec(Init(desired, queryOnly), actions).Some?
    ensures Inv(Exec(Init(desired, queryOnly), actions).value)
    decreases |actions|
  {
    if actions == [] {
    } else {
      var front, last := actions[..|actions| - 1], actions[|actions| - 1];
      ExecInv(desired, queryOnly, front);
      var s := Exec(Init(desired, queryOnly), front).value;
      StatusKept(s, last);
      ContextKept(s, last);
      WakeKept(s, last);
      StaleKept(s, last);
      ShutdownKept(s, last);
    }
  }

  // ----- Over whole runs -----

  /** `connected` is only ever set while there is a connection to write to, and the callbacks
      alternate, starting with OnConnect. */
  lemma ConnectedMeansActive(desired: Topics, queryOnly: bool, actions: seq<Action>)
    requires Exec(Init(desired, queryOnly), actions).Some?
    ensures var s := Exec(Init(desired, queryOnly), actions).value;
      (s.connected ==> s.active == Some(s.generation)) && Alternating(s.trace)
  {
    ExecInv(desired, queryOnly, actions);
  }

  /** No wakeup is lost beyond the three records. When no change is between its write and its signal: a
      parked `Start` with types to connect for has a token queued unless it is stranded; and unless the
      context of a live connection is done, what its node lacks is what is missing, and what its node
      delivers beyond the desired set is the surplus. */
  lemma NoLostWakeup(desired: Topics, queryOnly: bool, actions: seq<Action>)
    requires Exec(Init(desired, queryOnly), actions).Some?
    ensures var s := Exec(Init(desired, queryOnly), actions).value;
      s.updater.Idle? ==>
        && (s.pc.Parked? && s.desired.types != {} ==> (s.token <==> !s.stranded))
        && (Live(s.pc) && !Done(s) ==>
              s.desired.Minus(s.told) == s.missing && s.told.Minus(s.desired) == s.surplus)
  {
    ExecInv(desired, queryOnly, actions);
  }

  /** Additions are committed after their connection is gone, while another one has been set up from the
      old desired set or `Start` is parked. */
  predicate AdditionCrosses(s: State, a: Action) {
    a.Commit? && (Reconnected(s) || ParkedMeanwhile(s))
  }

  /** A removal is recorded while a connection set up from the old desired set goes on delivering what
      was removed: it was acknowledged on an earlier connection, or RemoveSubscriptions found none. */
  predicate RemovalCrosses(s: State, a: Action)
    requires Enabled(s, a)
  {
    match a
    case Commit => Live(s.pc) && !s.desired.Minus(s.updater.goal).Within(RemovedHere(s))
    case RemoveOffline(less) => Live(s.pc) && !s.desired.Apart(less)
    case _ => false
  }

  ghost predicate NoAdditionCrosses(start: State, actions: seq<Action>)
    requires Exec(start, actions).Some?
  {
    actions == [] ||
    (var front, last := actions[..|actions| - 1], actions[|actions| - 1];
     NoAdditionCrosses(start, front) && !AdditionCrosses(Exec(start, front).value, last))
  }

  ghost predicate NoRemovalCrosses(start: State, actions: seq<Action>)
    requires Exec(start, actions).Some?
  {
    actions == [] ||
    (var front, last := actions[..|actions| - 1], actions[|actions| - 1];
     NoRemovalCrosses(start, front) && !RemovalCrosses(Exec(start, front).value, last))
  }

  lemma NothingMissingKept(s: State, a: Action)
    requires Enabled(s, a) && s.missing == NOTHING && !s.stranded && !AdditionCrosses(s, a)
    ensures Next(s, a).missing == NOTHING && !Next(s, a).stranded
  {
    match a
    case Start(choice) =>
    case _ =>
  }

  lemma {:induction false} NothingMissing(start: State, actions: seq<Action>)
    requires Exec(start, actions).Some? && NoAdditionCrosses(start, actions)
    requires start.missing == NOTHING && !start.stranded
    ensures var s := Exec(start, actions).value; s.missing == NOTHING && !s.stranded
    decreases |actions|
  {
    if actions == [] {
    } else {
      var front := actions[..|actions| - 1];
      NothingMissing(start, front);
      NothingMissingKept(Exec(start, front).value, actions[|actions| - 1]);
    }
  }

  /** The placeholder type of a handshake without types. */
  const PLACEHOLDER_ONLY := Topics({PLACEHOLDER}, {})

  lemma SurplusKept(s: State, a: Action)
    requires Enabled(s, a) && s.surplus.Within(PLACEHOLDER_ONLY) && !RemovalCrosses(s, a)
    ensures Next(s, a).surplus.Within(PLACEHOLDER_ONLY)
  {
    match a
    case Start(choice) =>
    case _ =>
  }

  lemma {:induction false} NoSurplus(start: State, actions: seq<Action>)
    requires Exec(start, actions).Some? && NoRemovalCrosses(start, actions)
    requires start.surplus.Within(PLACEHOLDER_ONLY)
    ensures Exec(start, actions).value.surplus.Within(PLACEHOLDER_ONLY)
    decreases |actions|
  {
    if actions == [] {
    } else {
      var front := actions[..|actions| - 1];
      NoSurplus(start, front);
      SurplusKept(Exec(start, front).value, actions[|actions| - 1]);
    }
  }

  /** So no addition is lost in a run in which none crossed a reconnect or a parking. */
  lemma NothingLostUnlessCrossed(desired: Topics, queryOnly: bool, actions: seq<Action>)
    requires Exec(Init(desired, queryOnly), actions).Some?
    requires NoAdditionCrosses(Init(desired, queryOnly), actions)
    ensures var s := Exec(Init(desired, queryOnly), actions).value;
      s.updater.Idle? ==>
        && (s.pc.Parked? && s.desired.types != {} ==> s.token)
        && (Live(s.pc) && !Done(s) ==> s.desired.Within(s.told))
  {
    NoLostWakeup(desired, queryOnly, actions);
    NothingMissing(Init(desired, queryOnly), actions);
    var s := Exec(Init(desired, queryOnly), actions).value;
    MinusEmptyIff(s.desired, s.told);
  }

  /** And no removal in a run in which none crossed a reconnect: the node delivers nothing that is not
      desired, but for the placeholder. */
  lemma NothingLeftUnlessCrossed(desired: Topics, queryOnly: bool, actions: seq<Action>)
    requires Exec(Init(desired, queryOnly), actions).Some?
    requires NoRemovalCrosses(Init(desired, queryOnly), actions)
    ensures var s := Exec(Init(desired, queryOnly), actions).value;
      s.updater.Idle? && Live(s.pc) && !Done(s) ==> s.told.Within(s.desired.Plus(PLACEHOLDER_ONLY))
  {
    NoLostWakeup(desired, queryOnly, actions);
    NoSurplus(Init(desired, queryOnly), actions);
    var s := Exec(Init(desired, queryOnly), actions).value;
    if s.updater.Idle? && Live(s.pc) && !Done(s) {
      WithinPlus(s.told, s.desired, PLACEHOLDER_ONLY);
    }
  }

  lemma WithinPlus(a: Topics, b: Topics, c: Topics)
    requires a.Minus(b).Within(c)
    ensures a.Within(b.Plus(c))
  {
    forall x | x in a.types ensures x in b.Plus(c).types {
      assert x in b.types || x in a.Minus(b).types;
    }
    forall x | x in a.addresses ensures x in b.Plus(c).addresses {
      assert x in b.addresses || x in a.Minus(b).addresses;
    }
  }

  lemma {:induction false} WithoutCommits(start: State, actions: seq<Action>)
    requires Exec(start, actions).Some?
    requires forall a | a in actions :: !a.Commit?
    ensures NoAdditionCrosses(start, actions)
    ensures (forall a | a in actions :: !a.RemoveOffline?) ==> NoRemovalCrosses(start, actions)
    decreases |actions|
  {
    if actions == [] {
    } else {
      WithoutCommits(start, actions[..|actions| - 1]);
      assert actions[|actions| - 1] in actions;
    }
  }

  /** In particular nothing is lost among changes that bounce the connection; and no wakeup and no
      addition among these and removals made while not connected. */
  lemma NoLostSlowPathChange(desired: Topics, queryOnly: bool, actions: seq<Action>)
    requires Exec(Init(desired, queryOnly), actions).Some?
    requires forall a | a in actions :: !a.Commit?
    ensures var s := Exec(Init(desired, queryOnly), actions).value;
      s.updater.Idle? ==>
        && (s.pc.Parked? && s.desired.types != {} ==> s.token)
        && (Live(s.pc) && !Done(s) ==> s.desired.Within(s.told))
        && (Live(s.pc) && !Done(s) && (forall a | a in actions :: !a.RemoveOffline?) ==>
              s.told.Within(s.desired.Plus(PLACEHOLDER_ONLY)))
  {
    WithoutCommits(Init(desired, queryOnly), actions);
    NothingLostUnlessCrossed(desired, queryOnly, actions);
    if forall a | a in actions :: !a.RemoveOffline? {
      NothingLeftUnlessCrossed(desired, queryOnly, actions);
    }
  }

  // ----- What is left behind -----

  /** Between a successful dial and the socket being closed. */
  predicate HasSocket(pc: Pc) {
    pc.Activate? || pc.Handshaking? || (Open(pc) && !pc.FailPending?)
  }

  /** The context of a connection has not been cancelled by its `connect` having returned. */
  predicate InConnect(pc: Pc) {
    Live(pc) || pc.Snapshot? || pc.CancelContext?
  }

  ghost predicate CleanInv(s: State) {
    && s.sockets == (if HasSocket(s.pc) then {s.generation} else {})
    && s.owed == (if HasSocket(s.pc) || s.pc.FailPending? then {s.generation} else {})
    && (forall g | 1 <= g < s.generation || (g == s.generation >= 1 && !InConnect(s.pc)) :: g in s.cancelled)
    && (forall g | g in s.dismissed :: g <= s.generation)
    && (s.pc.Snapshot? || Staying(s.pc) ==> s.generation !in s.dismissed)
    && (s.pc.SendClose? ==> s.generation in s.dismissed)
    && s.goodbyes == s.dismissed - (if s.pc.SendClose? then {s.generation} else {})
  }

  lemma StartKeepsClean(s: State, choice: Choice)
    requires CleanInv(s) && StartEnabled(s, choice)
    ensures CleanInv(StartNext(s, choice))
  {
  }

  /** Connections and contexts are as they were, except that a context may have been cancelled. */
  predicate LeavesClean(s: State, t: State) {
    && t.pc == s.pc && t.generation == s.generation && t.sockets == s.sockets && t.owed == s.owed
    && t.dismissed == s.dismissed && t.goodbyes == s.goodbyes && s.cancelled <= t.cancelled
  }

  lemma BounceLeavesClean(s: State, a: Action)
    requires Enabled(s, a) && (a.CancelParent? || a.Replace? || a.CancelCaptured? || a.Signal?)
    ensures LeavesClean(s, Next(s, a))
  {
  }

  lemma AckLeavesClean(s: State, a: Action)
    requires Enabled(s, a) && (a.AckSubscribe? || a.AckUnsubscribe? || a.BeginInBand?)
    ensures LeavesClean(s, Next(s, a))
  {
  }

  lemma EndLeavesClean(s: State, a: Action)
    requires Enabled(s, a) && (a.Commit? || a.Abort? || a.RemoveOffline?)
    ensures LeavesClean(s, Next(s, a))
  {
  }

  lemma CleanKept(s: State, a: Action)
    requires CleanInv(s) && Enabled(s, a)
    ensures CleanInv(Next(s, a))
  {
    match a
    case Start(choice) => StartKeepsClean(s, choice);
    case Commit => EndLeavesClean(s, a);
    case Abort => EndLeavesClean(s, a);
    case RemoveOffline(_) => EndLeavesClean(s, a);
    case AckSubscribe(_) => AckLeavesClean(s, a);
    case AckUnsubscribe(_) => AckLeavesClean(s, a);
    case BeginInBand(_) => AckLeavesClean(s, a);
    case _ => BounceLeavesClean(s, a);
  }

  lemma {:induction false} ExecClean(desired: Topics, queryOnly: bool, actions: seq<Action>)
    requires Exec(Init(desired, queryOnly), actions).Some?
    ensures CleanInv(Exec(Init(desired, queryOnly), actions).value)
    decreases |actions|
  {
    if actions == [] {
    } else {
      var front := actions[..|actions| - 1];
      ExecClean(desired, queryOnly, front);
      CleanKept(Exec(Init(desired, queryOnly), front).value, actions[|actions| - 1]);
    }
  }

  /** `Start` leaves nothing behind: at most the current connection has an open socket or requests that
      its teardown has still to fail, and only from its dial to its teardown; the context of every
      connection whose `connect` has returned is cancelled; and exactly the connections given up because
      their context was done have been sent a close message, before anything else is taken down. */
  lemma LeavesNothingBehind(desired: Topics, queryOnly: bool, actions: seq<Action>)
    requires Exec(Init(desired, queryOnly), actions).Some?
    ensures var s := Exec(Init(desired, queryOnly), actions).value;
      && s.sockets == (if HasSocket(s.pc) then {s.generation} else {})
      && s.owed == (if HasSocket(s.pc) || s.pc.FailPending? then {s.generation} else {})
      && (forall g | 1 <= g < s.generation || (g == s.generation >= 1 && !InConnect(s.pc)) :: g in s.cancelled)
      && s.goodbyes == s.dismissed - (if s.pc.SendClose? then {s.generation} else {})
  {
    ExecClean(desired, queryOnly, actions);
  }

  // ----- In-band changes that cross a reconnect or a parking -----

  lemma MinusEmptyIff(a: Topics, b: Topics)
    ensures a.Minus(b) == NOTHING <==> a.Within(b)
  {
    assert a.Minus(b) == NOTHING ==> (forall x | x in a.types :: x !in a.Minus(b).types);
    assert a.Minus(b) == NOTHING ==> (forall x | x in a.addresses :: x !in a.Minus(b).addresses);
  }

  /** The connection is coming up or serving. */
  predicate Staying(pc: Pc) {
    (pc.Dial? || pc.Activate? || pc.Handshaking? || pc.MarkUp? || pc.CallConnect? || pc.Serve?)
  }

  /** Nothing is lacking: a parked `Start` that should connect has its token, and an undisturbed
      connection has a node that covers the desired set. At any other point of its loop `Start` is on
      its way to its next copy of the set. */
  predicate Covered(s: State) {
    && (s.pc.Parked? && s.desired.types != {} ==> s.token)
    && (Staying(s.pc) && !Done(s) ==> s.desired.Within(s.told))
  }

  /** Nothing more has to be done: such a node delivers the desired set and nothing else. */
  predicate Served(s: State) {
    && (s.pc.Parked? && s.desired.types != {} ==> s.token)
    && (Staying(s.pc) && !Done(s) ==> s.told == s.desired)
  }

  /** What a caller could look at just before an in-band change is committed. */
  predicate CommitCovers(s: State)
    requires s.updater.InBand?
  {
    if s.pc.Parked? then s.token || s.updater.goal.types == {}
    else if !Staying(s.pc) || Done(s) then true
    else if Reconnected(s) then s.updater.goal.Within(Handshake(s.desired))
    else s.updater.goal.Apart(s.missing)
  }

  predicate CommitServes(s: State)
    requires s.updater.InBand?
  {
    CommitCovers(s) && (Staying(s.pc) && !Done(s) ==> Unwanted(s).Within(RemovedHere(s)))
  }

  /** When an in-band change is committed, in any run and wherever `Start` is, exactly these conditions
      say whether the new desired set is covered, and whether it is served. Covered, when parked: a
      token is already queued, or there is still nothing to connect for. On another connection than
      acknowledged the additions: its handshake, for the old desired set, covered the goal. On the same
      one: the goal has nothing that an earlier commit left missing. Served, besides: everything that
      the connection was delivering and the goal does not keep was taken away on this very connection. */
  lemma CommitCoversIff(desired: Topics, queryOnly: bool, actions: seq<Action>, s: State)
    requires Exec(Init(desired, queryOnly), actions) == Some(s) && Enabled(s, Commit)
    ensures Covered(Next(s, Commit)) <==> CommitCovers(s)
    ensures Served(Next(s, Commit)) <==> CommitServes(s)
  {
    ExecInv(desired, queryOnly, actions);
    var t := Next(s, Commit);
    WakeKept(s, Commit);
    MinusEmptyIff(t.desired, t.told);
    MinusEmptyIff(t.told, t.desired);
    MinusEmptyIff(Unwanted(s), RemovedHere(s));
    if Reconnected(s) {
      MinusEmptyIff(s.updater.goal, Handshake(s.desired));
    } else {
      CommonEmptyIff(s.missing, s.updater.goal);
    }
  }

  lemma CommonEmptyIff(a: Topics, b: Topics)
    ensures a.Common(b) == NOTHING <==> b.Apart(a)
  {
    assert a.Common(b) == NOTHING ==> (forall x | x in a.types :: x !in b.types || x in a.Common(b).types);
    assert a.Common(b) == NOTHING ==> (forall x | x in a.addresses :: x !in b.addresses || x in a.Common(b).addresses);
  }

  lemma ExecSnoc(start: State, actions: seq<Action>, s: State, a: Action)
    requires Exec(start, actions) == Some(s) && Enabled(s, a)
    ensures Exec(start, actions + [a]) == Some(Next(s, a))
  {
    assert (actions + [a])[..|actions|] == actions;
  }

  /** An action taken at the end of a run that is being built. */
  lemma Does(start: State, actions: seq<Action>, s: State, a: Action) returns (more: seq<Action>, t: State)
    requires Exec(start, actions) == Some(s) && Enabled(s, a)
    ensures Exec(start, more) == Some(t) && t == Next(s, a)
  {
    ExecSnoc(start, actions, s, a);
    more, t := actions + [a], Next(s, a);
  }

  /** Nothing but where `Start` is, and what it shows of that, is different. */
  predicate SameConnection(s: State, t: State) {
    && t.generation == s.generation && t.told == s.told && t.desired == s.desired && t.updater == s.updater
    && t.cancelled == s.cancelled && t.token == s.token && t.queryOnly == s.queryOnly && t.parentDone == s.parentDone
  }

  lemma ComesUpStep(s: State)
    requires Staying(s.pc) && !s.pc.Serve?
    ensures StartEnabled(s, Proceed)
    ensures var t := StartNext(s, Proceed); Staying(t.pc) && Rank(t.pc) < Rank(s.pc) && SameConnection(s, t)
  {
  }

  /** A connection that has its copy of the desired set can come up. */
  lemma {:induction false} ComesUp(start: State, actions: seq<Action>, s: State)
    returns (more: seq<Action>, t: State)
    requires Exec(start, actions) == Some(s) && Staying(s.pc)
    ensures Exec(start, more) == Some(t) && t.pc.Serve? && SameConnection(s, t)
    decreases Rank(s.pc)
  {
    if s.pc.Serve? {
      more, t := actions, s;
    } else {
      ComesUpStep(s);
      more, t := Does(start, actions, s, Start(Proceed));
      more, t := ComesUp(start, more, t);
    }
  }

  /** From the top of the loop, a subscriber with types can start to dial. */
  lemma Dials(start: State, actions: seq<Action>, s: State) returns (more: seq<Action>, t: State)
    requires Exec(start, actions) == Some(s) && s.pc.Top? && !s.parentDone && s.desired.types != {}
    ensures Exec(start, more) == Some(t)
    ensures t.pc.Dial? && t.generation == s.generation + 1 && t.told == Handshake(s.desired)
    ensures t.desired == s.desired && t.updater == s.updater && t.cancelled == s.cancelled
    ensures t.token == s.token && t.queryOnly == s.queryOnly && !t.parentDone
  {
    more, t := Does(start, actions, s, Start(Proceed));
    more, t := Does(start, more, t, Start(Proceed));
    more, t := Does(start, more, t, Start(Proceed));
    more, t := Does(start, more, t, Start(Proceed));
  }

  /** So it can get a connection. */
  lemma Connects(start: State, actions: seq<Action>, s: State) returns (more: seq<Action>, t: State)
    requires Exec(start, actions) == Some(s) && s.pc.Top? && !s.parentDone && s.desired.types != {}
    ensures Exec(start, more) == Some(t)
    ensures t.pc.Serve? && t.generation == s.generation + 1 && t.told == Handshake(s.desired)
    ensures t.desired == s.desired && t.updater == s.updater && t.cancelled == s.cancelled
    ensures t.token == s.token && t.queryOnly == s.queryOnly && !t.parentDone
  {
    more, t := Dials(start, actions, s);
    more, t := ComesUp(start, more, t);
  }

  /** On the way from a lost connection back to the top of the loop. */
  predicate Dropping(pc: Pc) {
    2 <= Rank(pc) <= Rank(Serve) && !pc.Parked? && !pc.SendClose? && !pc.AwaitReader?
  }

  function DropChoice(pc: Pc): Choice {
    if pc.Serve? then Fail else if pc.Backoff? then TimerFires else Proceed
  }

  lemma DropStep(s: State)
    requires Dropping(s.pc) && !s.pc.Top? && !s.parentDone
    ensures StartEnabled(s, DropChoice(s.pc))
    ensures var pc := Target(s, DropChoice(s.pc)); Dropping(pc) && Rank(pc) < Rank(s.pc)
  {
  }

  /** A connection can be lost, and `Start` comes back to the top of its loop. */
  lemma Drops(start: State, actions: seq<Action>, s: State) returns (more: seq<Action>, t: State)
    requires Exec(start, actions) == Some(s) && s.pc.Serve? && !s.parentDone
    ensures Exec(start, more) == Some(t)
    ensures t.pc.Top? && t.generation == s.generation && t.cancelled <= s.cancelled + {s.generation}
    ensures t.desired == s.desired && t.updater == s.updater && t.token == s.token
    ensures t.queryOnly == s.queryOnly && !t.parentDone
  {
    more, t := actions, s;
    while !t.pc.Top?
      invariant Exec(start, more) == Some(t)
      invariant Dropping(t.pc)
      invariant t.generation == s.generation && t.cancelled <= s.cancelled + {s.generation}
      invariant t.desired == s.desired && t.updater == s.updater && t.token == s.token
      invariant t.queryOnly == s.queryOnly && !t.parentDone
      decreases Rank(t.pc)
    {
      DropStep(t);
      var step := Start(DropChoice(t.pc));
      ExecSnoc(start, more, t, step);
      more, t := more + [step], Next(t, step);
    }
  }

  /** Something the goal does not keep can be taken away; for nothing, no request is sent. */
  lemma TakesAwayOne(start: State, actions: seq<Action>, s: State, less: Topics)
    returns (more: seq<Action>, t: State)
    requires Exec(start, actions) == Some(s) && s.pc.Serve? && s.updater.InBand? && s.updater.goal.Apart(less)
    ensures Exec(start, more) == Some(t)
    ensures t.pc.Serve? && t.generation == s.generation && t.desired == s.desired && t.cancelled == s.cancelled
    ensures t.token == s.token && t.queryOnly == s.queryOnly && t.parentDone == s.parentDone
    ensures t.updater.InBand? && t.updater.goal == s.updater.goal && t.updater.added == s.updater.added
    ensures t.updater.asked == s.updater.asked.Plus(less)
  {
    if less == NOTHING {
      more, t := actions, s;
    } else {
      more, t := Does(start, actions, s, AckUnsubscribe(less));
    }
  }

  /** What is to go can be taken away, one dimension at a time, addresses first. */
  lemma TakesAway(start: State, actions: seq<Action>, s: State) returns (more: seq<Action>, t: State)
    requires Exec(start, actions) == Some(s) && s.pc.Serve? && s.updater.InBand?
    ensures Exec(start, more) == Some(t)
    ensures t.pc.Serve? && t.generation == s.generation && t.desired == s.desired && t.cancelled == s.cancelled
    ensures t.token == s.token && t.queryOnly == s.queryOnly && t.parentDone == s.parentDone
    ensures t.updater.InBand? && t.updater.goal == s.updater.goal && t.updater.added == s.updater.added
    ensures t.desired.Minus(t.updater.goal).Within(t.updater.asked)
  {
    var gone := s.desired.Minus(s.updater.goal);
    more, t := TakesAwayOne(start, actions, s, Topics({}, gone.addresses));
    more, t := TakesAwayOne(start, more, t, Topics(gone.types, {}));
  }

  /** A goal can be acknowledged and its connection lost before anything is committed. */
  lemma AcknowledgedThenDropped(start: State, actions: seq<Action>, s: State, goal: Topics)
    returns (more: seq<Action>, t: State)
    requires Exec(start, actions) == Some(s) && s.pc.Serve? && s.updater.Idle? && !s.parentDone
    ensures Exec(start, more) == Some(t)
    ensures t.pc.Top? && t.generation == s.generation && t.cancelled <= s.cancelled + {s.generation}
    ensures t.desired == s.desired && t.updater.InBand? && t.updater.goal == goal && Enabled(t, Commit)
    ensures t.token == s.token && t.queryOnly == s.queryOnly && !t.parentDone
  {
    more, t := Does(start, actions, s, BeginInBand(goal));
    if !goal.Within(s.desired) {
      more, t := Does(start, more, t, AckSubscribe(goal));
    }
    more, t := TakesAway(start, more, t);
    more, t := Drops(start, more, t);
  }

  /** A stuck connection: it serves, nothing disturbs it, nobody is changing anything, and `Start` moves
      only when it fails. */
  predicate Quiet(s: State) {
    s.pc.Serve? && s.updater.Idle? && !s.token && !Done(s)
  }

  /** Asking for the desired set again sends nothing, and changes nothing. */
  lemma AskingAgain(s: State)
    requires s.updater.Idle? && s.missing.Within(s.desired) && s.surplus.Apart(s.desired)
    ensures var again := Next(s, BeginInBand(s.desired)); Enabled(again, Commit) && Next(again, Commit) == s
  {
    var again := Next(s, BeginInBand(s.desired));
    assert s.missing.Common(s.desired) == s.missing;
    assert s.desired.Minus(s.missing).Plus(s.surplus).Minus(s.desired).Minus(NOTHING) == s.surplus;
  }

  /** An update can be lost to a reconnect. For any old set with types and any other goal, there is a run
      that ends with the goal committed, nothing under way and no token queued, while the node of an
      undisturbed connection goes on delivering the old set: it lacks what was added and keeps what was
      removed. From there `Start` only ever moves when that connection fails, and asking for the same
      goal again sends nothing and leaves everything as it is. */
  lemma UpdateCanBeLost(before: Topics, goal: Topics) returns (actions: seq<Action>, s: State)
    requires before.types != {} && goal != before
    ensures Exec(Init(before, false), actions) == Some(s)
    ensures Quiet(s) && s.desired == goal && s.told == before
    ensures forall choice | StartEnabled(s, choice) :: choice.Fail?
    ensures var again := Next(s, BeginInBand(goal)); Enabled(again, Commit) && Next(again, Commit) == s
  {
    var start := Init(before, false);
    actions, s := Connects(start, [], start);
    actions, s := AcknowledgedThenDropped(start, actions, s, goal);
    actions, s := Connects(start, actions, s);
    actions, s := Does(start, actions, s, Commit);
    AskingAgain(s);
  }

  /** A removal made while not connected can be lost, too: if it comes after the new connection has taken
      its copy of the desired set, that connection delivers what was removed, and nothing bounces it. */
  lemma OfflineRemovalCanBeLost(before: Topics, less: Topics) returns (actions: seq<Action>, s: State)
    requires before.types != {} && !before.Apart(less)
    ensures Exec(Init(before, false), actions) == Some(s)
    ensures Quiet(s) && s.desired == before.Minus(less) && s.told == before
    ensures !s.told.Within(s.desired) && forall choice | StartEnabled(s, choice) :: choice.Fail?
  {
    var start := Init(before, false);
    actions, s := Dials(start, [], start);
    actions, s := Does(start, actions, s, RemoveOffline(less));
    actions, s := ComesUp(start, actions, s);
  }

  /** All types can be removed on an open connection. */
  lemma Empties(start: State, actions: seq<Action>, s: State) returns (more: seq<Action>, t: State)
    requires Exec(start, actions) == Some(s) && s.pc.Serve? && s.updater.Idle?
    ensures Exec(start, more) == Some(t)
    ensures t.pc.Serve? && t.updater.Idle? && t.desired.types == {} && t.generation == s.generation
    ensures t.token == s.token && t.queryOnly == s.queryOnly && t.parentDone == s.parentDone
  {
    more, t := Does(start, actions, s, BeginInBand(Topics({}, s.desired.addresses)));
    more, t := Does(start, more, t, AckUnsubscribe(Topics(s.desired.types, {})));
    more, t := Does(start, more, t, Commit);
  }

  /** An update can be lost with no reconnect at all. For any old set and any goal with types, there is
      a run in which all types are removed, the goal is acknowledged, the connection drops, `Start`
      parks, and then the goal is committed: `Start` has types to connect for and no step to take. */
  lemma UpdateCanStrand(before: Topics, goal: Topics) returns (actions: seq<Action>, s: State)
    requires before.types != {} && goal.types != {}
    ensures Exec(Init(before, false), actions) == Some(s)
    ensures s.pc.Parked? && s.updater.Idle? && !s.parentDone && s.desired == goal && s.generation == 1
    ensures forall choice :: !StartEnabled(s, choice)
  {
    var start := Init(before, false);
    actions, s := Connects(start, [], start);
    actions, s := Empties(start, actions, s);
    actions, s := AcknowledgedThenDropped(start, actions, s, goal);
    actions, s := Does(start, actions, s, Start(Proceed));
    actions, s := Does(start, actions, s, Start(Proceed));
    actions, s := Does(start, actions, s, Commit);
  }

  // ----- Shutting down -----

  /** How many steps `Start` can still take once its context is done. */
  function Rank(pc: Pc): nat {
    match pc
    case Returned => 0
    case Finish => 1
    case Top => 2
    case Parked => 3
    case Backoff => 3
    case CheckParent => 4
    case ClearCancel => 5
    case CancelContext => 6
    case FailPending => 7
    case CloseConn => 8
    case ClearConn => 9
    case CallDisconnect => 10
    case MarkDown => 11
    case AwaitReader => 12
    case SendClose => 13
    case Serve => 14
    case CallConnect => 15
    case MarkUp => 16
    case Handshaking => 17
    case Activate => 18
    case Dial => 19
    case Snapshot => 20
    case Publish => 21
    case CheckTypes => 22
  }

  lemma ShutdownTarget(s: State, choice: Choice)
    requires s.parentDone && StartEnabled(s, choice)
    ensures Rank(Target(s, choice)) < Rank(s.pc) && !Target(s, choice).Backoff?
  {
  }

  /** Once the context is done, every step of `Start` brings it nearer its return, whichever way its
      selects go, and it never begins to wait for its next attempt; no other step sets it back, however
      often tokens are queued. */
  lemma ShutdownStep(s: State, a: Action)
    requires s.parentDone && Enabled(s, a)
    ensures var t := Next(s, a);
      t.parentDone && if a.Start? then Rank(t.pc) < Rank(s.pc) && !t.pc.Backoff? else t.pc == s.pc
  {
    match a
    case Start(choice) => ShutdownTarget(s, choice);
    case _ =>
  }

  lemma ShutdownNeverBlocks(s: State)
    requires s.parentDone && !s.pc.Returned?
    ensures exists choice :: StartEnabled(s, choice)
  {
    if s.pc.Parked? || s.pc.Backoff? || s.pc.Serve? {
      assert StartEnabled(s, ContextDone);
    } else {
      assert StartEnabled(s, Proceed);
    }
  }

  function StartSteps(actions: seq<Action>): nat {
    if actions == [] then 0
    else StartSteps(actions[..|actions| - 1]) + if actions[|actions| - 1].Start? then 1 else 0
  }

  /** However a run goes on after its context is done, it holds at most 22 more steps of `Start`. */
  lemma {:induction false} ShutdownBounded(s: State, actions: seq<Action>)
    requires s.parentDone && Exec(s, actions).Some?
    ensures var t := Exec(s, actions).value;
      t.parentDone && StartSteps(actions) <= Rank(s.pc) - Rank(t.pc)
    decreases |actions|
  {
    if actions == [] {
    } else {
      ShutdownBounded(s, actions[..|actions| - 1]);
      ShutdownStep(Exec(s, actions[..|actions| - 1]).value, actions[|actions| - 1]);
    }
  }

  /** `Start` returns only when its context is done, and closes the subscribers' channels exactly
      once, on its way out. */
  lemma ClosesOnceOnReturn(desired: Topics, queryOnly: bool, actions: seq<Action>)
    requires Exec(Init(desired, queryOnly), actions).Some?
    ensures var s := Exec(Init(desired, queryOnly), actions).value;
      s.closes == (if s.pc.Returned? then 1 else 0) && (s.pc.Returned? ==> s.parentDone)
  {
    ExecInv(desired, queryOnly, actions);
  }

  // ----- Catching up -----

  /** An undisturbed connection is open, and its node delivers the desired set and nothing else, but for
      the placeholder. */
  predicate CaughtUp(s: State) {
    (s.pc.MarkUp? || s.pc.CallConnect? || s.pc.Serve?) && !Done(s)
    && s.desired.Within(s.told) && s.told.Within(s.desired.Plus(PLACEHOLDER_ONLY))
  }

  /** How many steps `Start` can be from there, when neither dialling nor the handshake fails. */
  function Lag(s: State): nat {
    match s.pc
    case Handshaking => if Done(s) then 22 else 1
    case Activate => if Done(s) then 23 else 2
    case Dial => if Done(s) then 24 else 3
    case Snapshot => if Done(s) then 25 else 4
    case Publish => 5
    case CheckTypes => 6
    case Top => 7
    case Parked => 8
    case Backoff => 8
    case _ => Rank(s.pc) + 5
  }

  /** Settled: no change under way, none that was lost, something to connect for. */
  predicate Settled(s: State) {
    && s.updater.Idle? && !s.parentDone && HasTypes(s)
    && s.missing == NOTHING && s.surplus.Within(PLACEHOLDER_ONLY) && !s.stranded
  }

  /** The account of a settled connection that nothing disturbs. */
  lemma SettledDelivers(s: State)
    requires Inv(s) && Settled(s) && Live(s.pc) && !Done(s)
    ensures s.desired.Within(s.told) && s.told.Within(s.desired.Plus(PLACEHOLDER_ONLY))
  {
    MinusEmptyIff(s.desired, s.told);
    WithinPlus(s.told, s.desired, PLACEHOLDER_ONLY);
  }

  /** Only a connection that serves fails: dialling and the handshake go through. */
  predicate GoesThrough(s: State, choice: Choice) {
    StartEnabled(s, choice) && (choice.Fail? ==> s.pc.Serve?)
  }

  lemma CatchUpStep(s: State, choice: Choice)
    requires Inv(s) && Settled(s) && !CaughtUp(s) && GoesThrough(s, choice)
    ensures var t := StartNext(s, choice);
      && Inv(t) && Settled(t) && t.desired == s.desired
      && (CaughtUp(t) || Lag(t) < Lag(s))
  {
    StartKeepsStatus(s, choice);
    StartKeepsContext(s, choice);
    StartKeepsWake(s, choice);
    StartKeepsStale(s, choice);
    StartKeepsShutdown(s, choice);
    var t := StartNext(s, choice);
    if Live(t.pc) && !Done(t) {
      SettledDelivers(t);
    }
  }

  lemma CatchUpNeverBlocks(s: State)
    requires Inv(s) && Settled(s) && !CaughtUp(s)
    ensures exists choice :: GoesThrough(s, choice)
  {
    if Live(s.pc) && !Done(s) {
      SettledDelivers(s);
    }
    if s.pc.Parked? {
      assert GoesThrough(s, TakeToken);
    } else if s.pc.Serve? {
      assert GoesThrough(s, ContextDone);
    } else if s.pc.Backoff? {
      assert GoesThrough(s, TimerFires);
    } else {
      assert GoesThrough(s, Proceed);
    }
  }

  /** Once the changes stop, and as soon as dialling and the handshake go through, `Start` catches up
      within 25 steps of its own, whichever way its selects go and whether or not a connection it is
      about to give up fails first. */
  lemma {:induction false} CatchesUp(s: State, choices: seq<Choice>, states: seq<State>) returns (k: nat)
    requires Inv(s) && Settled(s)
    requires |states| == |choices| + 1 && states[0] == s && |choices| >= Lag(s)
    requires forall i | 0 <= i < |choices| ::
      GoesThrough(states[i], choices[i]) && states[i + 1] == StartNext(states[i], choices[i])
    ensures k <= Lag(s) <= 25 && k < |states| && CaughtUp(states[k]) && states[k].desired == s.desired
    decreases |choices|
  {
    if CaughtUp(s) {
      return 0;
    }
    CatchUpNeverBlocks(s);
    CatchUpStep(s, choices[0]);
    if CaughtUp(states[1]) {
      return 1;
    }
    k := CatchesUp(states[1], choices[1..], states[1..]);
    k := k + 1;
  }

  /** And it stays there until that connection fails. */
  lemma {:induction false} StaysCaughtUp(choices: seq<Choice>, states: seq<State>, k: nat)
    requires |states| == |choices| + 1 && k < |states| && Settled(states[0]) && CaughtUp(states[0])
    requires forall i | 0 <= i < |choices| ::
      StartEnabled(states[i], choices[i]) && states[i + 1] == StartNext(states[i], choices[i])
    requires forall i | 0 <= i < k :: !choices[i].Fail?
    ensures Settled(states[k]) && CaughtUp(states[k])
    decreases k
  {
    if k == 0 {
    } else {
      StaysCaughtUp(choices, states, k - 1);
    }
  }
}
