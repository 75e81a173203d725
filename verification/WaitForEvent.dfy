/** Waiting for one block or transaction: examples/wait-for-event/main.go subscribes first, looks the
    target up second and then drains the event stream. The node handles the frames of a connection in
    order; what lands on chain at any moment is pushed to it from the handshake on. */
module WaitForEvent {
  import opened Registry
  import opened Wrappers

  /** Blocks or transactions are numbered; number `TARGET` is the one waited for. */
  const TARGET: nat := 0

  datatype ToNode = Handshake | Lookup
  datatype ToClient = Reply(found: bool) | Push(item: nat)

  /** `Connecting` until `onConnect` has been called, `Looking` until the lookup is answered. `dropped`
      records that the push of the target, and no other, met a full buffer. */
  datatype Pc = Connecting | Connected | Looking | Draining | FoundByLookup | FoundByEvent

  datatype State = State(
    pc: Pc,
    toNode: seq<ToNode>, toClient: seq<ToClient>,
    subscribed: bool, chain: set<nat>,
    answer: Option<bool>, buffer: seq<nat>, dropped: bool)

  datatype Action =
    | SendHandshake
    | SendLookup
    | NodeHandles
    | Land(item: nat)
    | ClientReads
    | TakeAnswer
    | Drain

  const INIT := State(Connecting, [], [], false, {}, None, [], false)

  predicate Enabled(s: State, a: Action) {
    match a
    case SendHandshake => s.pc.Connecting?
    case SendLookup => s.pc.Connected?
    case NodeHandles => s.toNode != []
    case Land(item) => item !in s.chain
    case ClientReads => s.toClient != []
    case TakeAnswer => s.pc.Looking? && s.answer.Some?
    case Drain => s.pc.Draining? && s.buffer != []
  }

  function Next(s: State, a: Action): State
    requires Enabled(s, a)
  {
    match a
    case SendHandshake => s.(toNode := s.toNode + [Handshake], pc := Connected)
    case SendLookup => s.(toNode := s.toNode + [Lookup], pc := Looking)
    case NodeHandles =>
      if s.toNode[0].Handshake? then s.(toNode := s.toNode[1..], subscribed := true)
      else s.(toNode := s.toNode[1..], toClient := s.toClient + [Reply(TARGET in s.chain)])
    case Land(item) =>
      s.(chain := s.chain + {item}, toClient := if s.subscribed then s.toClient + [Push(item)] else s.toClient)
    case ClientReads =>
      var t := s.(toClient := s.toClient[1..]);
      (match s.toClient[0]
       case Reply(found) => t.(answer := Some(found))
       case Push(item) =>
         t.(buffer := Buffered(s.buffer, item),
            dropped := s.dropped || (item == TARGET && |s.buffer| >= CAPACITY)))
    case TakeAnswer => s.(pc := if s.answer.value then FoundByLookup else Draining, answer := None)
    case Drain => s.(buffer := s.buffer[1..], pc := if s.buffer[0] == TARGET then FoundByEvent else Draining)
  }

  /** The node has not come to the lookup yet. */
  predicate Unasked(s: State) {
    s.pc.Connecting? || s.pc.Connected? || Lookup in s.toNode
  }

  /** Frames reach the node in the order handshake, lookup. */
  ghost predicate InOrder(s: State) {
    match s.pc
    case Connecting => s.toNode == [] && !s.subscribed
    case Connected => s.toNode == if s.subscribed then [] else [Handshake]
    case Looking =>
      if s.subscribed then s.toNode == [] || s.toNode == [Lookup] else s.toNode == [Handshake, Lookup]
    case _ => s.toNode == [] && s.subscribed
  }

  function Answers(frames: seq<ToClient>): nat {
    if frames == [] then 0 else (if frames[0].Reply? then 1 else 0) + Answers(frames[1..])
  }

  lemma {:induction false} AnswersSnoc(frames: seq<ToClient>, f: ToClient)
    ensures Answers(frames + [f]) == Answers(frames) + if f.Reply? then 1 else 0
    decreases |frames|
  {
    if frames == [] {
      assert [f][1..] == [];
    } else {
      assert (frames + [f])[1..] == frames[1..] + [f];
      AnswersSnoc(frames[1..], f);
    }
  }

  /** Exactly one answer is under way while the client waits for it, and none otherwise. */
  ghost predicate AnswerOk(s: State) {
    Answers(s.toClient) + (if s.answer.Some? then 1 else 0)
      == if s.pc.Looking? && Lookup !in s.toNode then 1 else 0
  }

  /** If the target is on chain, then it has been found, or it still will be. */
  ghost predicate NotMissed(s: State) {
    TARGET in s.chain ==>
      || s.pc.FoundByLookup? || s.pc.FoundByEvent?
      || Unasked(s)
      || Reply(true) in s.toClient || s.answer == Some(true)
      || Push(TARGET) in s.toClient || TARGET in s.buffer
      || s.dropped
  }

  ghost predicate Inv(s: State) {
    InOrder(s) && AnswerOk(s) && NotMissed(s)
  }

  lemma HeadAndTail<T>(s: seq<T>)
    requires s != []
    ensures forall x :: x in s <==> x == s[0] || x in s[1..]
  {
    assert s == [s[0]] + s[1..];
  }

  lemma HeadsAndTails(s: State)
    ensures s.toNode != [] ==> forall x :: x in s.toNode <==> x == s.toNode[0] || x in s.toNode[1..]
    ensures s.toClient != [] ==> forall x :: x in s.toClient <==> x == s.toClient[0] || x in s.toClient[1..]
    ensures s.buffer != [] ==> forall x :: x in s.buffer <==> x == s.buffer[0] || x in s.buffer[1..]
  {
    if s.toNode != [] {
      HeadAndTail(s.toNode);
    }
    if s.toClient != [] {
      HeadAndTail(s.toClient);
    }
    if s.buffer != [] {
      HeadAndTail(s.buffer);
    }
  }

  lemma InOrderKept(s: State, a: Action)
    requires Inv(s) && Enabled(s, a)
    ensures InOrder(Next(s, a))
  {
  }

  lemma AnswerKept(s: State, a: Action)
    requires Inv(s) && Enabled(s, a)
    ensures AnswerOk(Next(s, a))
  {
    if a.NodeHandles? {
      AnswersSnoc(s.toClient, Reply(TARGET in s.chain));
    } else if a.Land? {
      AnswersSnoc(s.toClient, Push(a.item));
    }
  }

  lemma NotMissedKept(s: State, a: Action)
    requires Inv(s) && Enabled(s, a)
    ensures NotMissed(Next(s, a))
  {
    HeadsAndTails(s);
  }

  ghost predicate Run(states: seq<State>, actions: seq<Action>) {
    && |states| == |actions| + 1
    && states[0] == INIT
    && forall i | 0 <= i < |actions| :: Enabled(states[i], actions[i]) && states[i + 1] == Next(states[i], actions[i])
  }

  lemma {:induction false} RunInv(states: seq<State>, actions: seq<Action>, i: nat)
    requires Run(states, actions) && i < |states|
    ensures Inv(states[i])
    decreases i
  {
    if i == 0 {
    } else {
      RunInv(states, actions, i - 1);
      InOrderKept(states[i - 1], actions[i - 1]);
      AnswerKept(states[i - 1], actions[i - 1]);
      NotMissedKept(states[i - 1], actions[i - 1]);
    }
  }

  predicate Found(s: State) {
    s.pc.FoundByLookup? || s.pc.FoundByEvent?
  }

  /** Nothing is missed. At whatever moment the target lands, before the handshake, between handshake
      and lookup, or after the lookup: it has been found, or the node has not come to the lookup yet,
      or a reply that announces it is under way, or its push is queued or buffered, or its push
      found the buffer full. */
  lemma TargetIsNotMissed(states: seq<State>, actions: seq<Action>, i: nat)
    requires Run(states, actions) && i < |states| && TARGET in states[i].chain
    ensures var s := states[i];
      || Found(s) || Unasked(s) || Reply(true) in s.toClient || s.answer == Some(true)
      || Push(TARGET) in s.toClient || TARGET in s.buffer || s.dropped
  {
    RunInv(states, actions, i);
  }

  // ----- The way to the target -----

  /** How many items stand before the first `x`. */
  function Position<T(==)>(s: seq<T>, x: T): nat {
    if s == [] || s[0] == x then 0 else 1 + Position(s[1..], x)
  }

  lemma {:induction false} PositionSnoc<T>(s: seq<T>, x: T, y: T)
    requires x in s
    ensures Position(s + [y], x) == Position(s, x)
    decreases |s|
  {
    if s[0] == x {
    } else {
      assert (s + [y])[1..] == s[1..] + [y];
      PositionSnoc(s[1..], x, y);
    }
  }

  lemma {:induction false} AnswerIsThere(frames: seq<ToClient>)
    requires Answers(frames) > 0
    ensures Reply(true) in frames || Reply(false) in frames
    decreases |frames|
  {
    if frames[0].Reply? {
      assert frames[0] in frames;
    } else {
      AnswerIsThere(frames[1..]);
      HeadAndTail(frames);
    }
  }

  /** The action the search waits for. */
  function Helpful(s: State): Action {
    match s.pc
    case Connecting => SendHandshake
    case Connected => SendLookup
    case Looking =>
      if s.toNode != [] then NodeHandles else if s.answer.None? then ClientReads else TakeAnswer
    case _ => if TARGET in s.buffer then Drain else ClientReads
  }

  /** The stage of the search, counted down. */
  function Stage(s: State): nat {
    match s.pc
    case Connecting => 8
    case Connected => 7
    case Looking => if s.toNode != [] then 4 + |s.toNode| else if s.answer.None? then 4 else 3
    case Draining => if TARGET in s.buffer then 1 else 2
    case _ => 0
  }

  /** How many items are ahead of the one the stage waits for. */
  function Ahead(s: State): nat {
    match Stage(s)
    case 4 => Position(s.toClient, Reply(Reply(true) in s.toClient))
    case 2 => Position(s.toClient, Push(TARGET))
    case 1 => Position(s.buffer, TARGET)
    case _ => 0
  }

  predicate Nearer(t: State, s: State) {
    Stage(t) < Stage(s) || (Stage(t) == Stage(s) && Ahead(t) < Ahead(s))
  }

  predicate AsNear(t: State, s: State) {
    Stage(t) == Stage(s) && Ahead(t) == Ahead(s)
  }

  /** The lookup came too early for the target, and then its push found the buffer full. */
  predicate Lost(s: State) {
    s.dropped && s.pc.Draining?
  }

  /** The target is on chain, and neither found yet nor lost. */
  predicate Searching(s: State) {
    TARGET in s.chain && !Found(s) && !Lost(s)
  }

  /** What the search waits for can always happen, whatever else is queued. */
  lemma HelpfulEnabled(s: State)
    requires Inv(s) && Searching(s)
    ensures Enabled(s, Helpful(s))
  {
  }

  lemma {:induction false} NoAnswer(frames: seq<ToClient>, found: bool)
    requires Answers(frames) == 0
    ensures Reply(found) !in frames
    decreases |frames|
  {
    if frames == [] {
    } else {
      NoAnswer(frames[1..], found);
      HeadAndTail(frames);
    }
  }

  /** The item the stage waits for is where `Ahead` looks for it. */
  lemma Awaited(s: State)
    requires Inv(s) && Searching(s)
    ensures Stage(s) == 4 ==> Reply(Reply(true) in s.toClient) in s.toClient
    ensures Stage(s) == 2 ==> Push(TARGET) in s.toClient
    ensures Stage(s) == 1 ==> TARGET in s.buffer
  {
    if Stage(s) == 4 {
      AnswerIsThere(s.toClient);
    } else if s.pc.Draining? {
      assert Answers(s.toClient) == 0;
      NoAnswer(s.toClient, true);
    }
  }

  /** The search is over, or nearer its end, or waits as before for what `a` was not. */
  predicate Proceeds(s: State, a: Action, t: State) {
    || Found(t) || Lost(t) || Nearer(t, s)
    || (a != Helpful(s) && AsNear(t, s) && Helpful(t) == Helpful(s))
  }

  lemma LandProceeds(s: State, item: nat)
    requires Inv(s) && Searching(s) && Enabled(s, Land(item))
    ensures Proceeds(s, Land(item), Next(s, Land(item)))
  {
    Awaited(s);
    if s.subscribed && Stage(s) == 4 {
      PositionSnoc(s.toClient, Reply(Reply(true) in s.toClient), Push(item));
    } else if s.subscribed && Stage(s) == 2 {
      PositionSnoc(s.toClient, Push(TARGET), Push(item));
    }
  }

  lemma ReadProceeds(s: State)
    requires Inv(s) && Searching(s) && Enabled(s, ClientReads)
    ensures Proceeds(s, ClientReads, Next(s, ClientReads))
  {
    Awaited(s);
    HeadAndTail(s.toClient);
    if Stage(s) == 1 && s.toClient[0].Push? {
      PositionSnoc(s.buffer, TARGET, s.toClient[0].item);
    }
  }

  lemma DrainProceeds(s: State)
    requires Inv(s) && Searching(s) && Enabled(s, Drain)
    ensures Proceeds(s, Drain, Next(s, Drain))
  {
    HeadAndTail(s.buffer);
  }

  lemma OthersProceed(s: State, a: Action)
    requires Inv(s) && Searching(s) && Enabled(s, a) && !a.Land? && !a.ClientReads? && !a.Drain?
    ensures Proceeds(s, a, Next(s, a))
  {
  }

  /** A landing, or anything else that can happen, leaves the search as near as it was; the helpful
      action brings it nearer. */
  lemma SearchStep(s: State, a: Action)
    requires Inv(s) && Searching(s) && Enabled(s, a)
    ensures var t := Next(s, a);
      || Found(t) || Lost(t) || Nearer(t, s)
      || (a != Helpful(s) && AsNear(t, s) && Helpful(t) == Helpful(s))
  {
    match a
    case Land(item) => LandProceeds(s, item);
    case ClientReads => ReadProceeds(s);
    case Drain => DrainProceeds(s);
    case _ => OthersProceed(s, a);
  }

  /** How much the node and the client still have to handle. */
  function Work(s: State): nat {
    (if s.pc.Connecting? then 10 else if s.pc.Connected? then 5 else 0)
    + 4 * |s.toNode| + 2 * |s.toClient| + |s.buffer| + (if s.answer.Some? then 1 else 0)
  }

  /** Everything but a landing brings that nearer its end. */
  lemma WorkShrinks(s: State, a: Action)
    requires Inv(s) && Enabled(s, a) && !a.Land?
    ensures Work(Next(s, a)) < Work(s)
  {
  }

  lemma {:induction false} StretchBounded(states: seq<State>, actions: seq<Action>, i: nat, j: nat)
    requires Run(states, actions) && i <= j < |states|
    requires forall k | i <= k < j :: !actions[k].Land?
    ensures j - i <= Work(states[i]) - Work(states[j])
    decreases j - i
  {
    if i == j {
    } else {
      StretchBounded(states, actions, i, j - 1);
      RunInv(states, actions, j - 1);
      WorkShrinks(states[j - 1], actions[j - 1]);
    }
  }

  /** While nothing further lands, the search ends with the target found: such a stretch of a run is no
      longer than the work there was at its start; until the target is found its search can go on,
      unless it is lost; so it has been found when the stretch has that length. */
  lemma SearchEnds(states: seq<State>, actions: seq<Action>, i: nat, j: nat)
    requires Run(states, actions) && i <= j < |states|
    requires forall k | i <= k < j :: !actions[k].Land?
    ensures j - i <= Work(states[i])
    ensures TARGET in states[j].chain && !Lost(states[j]) ==>
      Found(states[j]) || (Enabled(states[j], Helpful(states[j])) && j - i < Work(states[i]))
  {
    StretchBounded(states, actions, i, j);
    RunInv(states, actions, j);
    if Searching(states[j]) {
      HelpfulEnabled(states[j]);
      WorkShrinks(states[j], Helpful(states[j]));
    }
  }

  /** An action taken at the end of a run that is being built. */
  lemma Does(states: seq<State>, actions: seq<Action>, a: Action) returns (more: seq<State>, longer: seq<Action>)
    requires Run(states, actions) && Enabled(states[|states| - 1], a)
    ensures Run(more, longer)
    ensures more[|more| - 1] == Next(states[|states| - 1], a)
  {
    more, longer := states + [Next(states[|states| - 1], a)], actions + [a];
  }

  /** A run in which the lookup comes too early and then `n` other items fill the buffer. */
  lemma {:induction false} Fills(n: nat) returns (states: seq<State>, actions: seq<Action>)
    requires n <= CAPACITY
    ensures Run(states, actions)
    ensures var s := states[|states| - 1];
      && s.pc.Draining? && s.toNode == [] && s.toClient == [] && s.subscribed && s.answer.None?
      && |s.buffer| == n && TARGET !in s.buffer && (forall item | item in s.chain :: TARGET < item <= n)
    decreases n
  {
    if n == 0 {
      states, actions := [INIT], [];
      states, actions := Does(states, actions, SendHandshake);
      states, actions := Does(states, actions, SendLookup);
      states, actions := Does(states, actions, NodeHandles);
      states, actions := Does(states, actions, NodeHandles);
      states, actions := Does(states, actions, ClientReads);
      states, actions := Does(states, actions, TakeAnswer);
    } else {
      states, actions := Fills(n - 1);
      states, actions := Does(states, actions, Land(n));
      states, actions := Does(states, actions, ClientReads);
    }
  }

  /** The target really can be lost: there is a run that ends with the target on chain, a full buffer
      without it, and nothing under way that could still bring it. */
  lemma OverflowCanMiss() returns (states: seq<State>, actions: seq<Action>)
    ensures Run(states, actions)
    ensures var s := states[|states| - 1];
      && TARGET in s.chain && s.pc.Draining? && s.toNode == [] && s.toClient == [] && s.answer.None?
      && |s.buffer| == 256 && TARGET !in s.buffer && Lost(s)
  {
    states, actions := Fills(CAPACITY);
    states, actions := Does(states, actions, Land(TARGET));
    states, actions := Does(states, actions, ClientReads);
  }

  // ----- Runs that go on for ever, on a live chain -----

  /** An endless run; a step may also do nothing. */
  ghost predicate Endless(run: nat -> State, acts: nat -> Option<Action>) {
    && run(0) == INIT
    && forall i: nat :: Advances(run, acts, i)
  }

  ghost predicate Advances(run: nat -> State, acts: nat -> Option<Action>, i: nat) {
    match acts(i)
    case None => run(i + 1) == run(i)
    case Some(a) => Enabled(run(i), a) && run(i + 1) == Next(run(i), a)
  }

  /** From step `i` on, `a` is taken some time, or is disabled some time. */
  ghost predicate GetsItsTurn(run: nat -> State, acts: nat -> Option<Action>, a: Action, i: nat) {
    exists j: nat :: i <= j && (acts(j) == Some(a) || !Enabled(run(j), a))
  }

  /** Node and client keep working: nothing they can do is for ever possible and never done. Landings
      are under no such obligation, and can come at any rate. */
  ghost predicate Fair(run: nat -> State, acts: nat -> Option<Action>) {
    forall a: Action, i: nat :: !a.Land? ==> GetsItsTurn(run, acts, a, i)
  }

  lemma {:induction false} EndlessInv(run: nat -> State, acts: nat -> Option<Action>, i: nat)
    requires Endless(run, acts)
    ensures Inv(run(i))
    decreases i
  {
    if i == 0 {
    } else {
      EndlessInv(run, acts, i - 1);
      assert Advances(run, acts, i - 1);
      if acts(i - 1).Some? {
        InOrderKept(run(i - 1), acts(i - 1).value);
        AnswerKept(run(i - 1), acts(i - 1).value);
        NotMissedKept(run(i - 1), acts(i - 1).value);
      }
    }
  }

  /** Up to step `j` the search has come nearer at some step, or is waiting for the same action. */
  lemma {:induction false} NearerOrWaiting(run: nat -> State, acts: nat -> Option<Action>, i: nat, j: nat)
    returns (k: nat)
    requires Endless(run, acts) && i <= j && Searching(run(i))
    ensures i <= k <= j
    ensures !Searching(run(k)) || Nearer(run(k), run(i))
            || (k == j && AsNear(run(j), run(i)) && Helpful(run(j)) == Helpful(run(i)))
    decreases j - i
  {
    if i == j {
      return j;
    } else {
      k := NearerOrWaiting(run, acts, i, j - 1);
      if k == j - 1 && Searching(run(k)) && AsNear(run(k), run(i)) {
        assert Advances(run, acts, k);
        EndlessInv(run, acts, k);
        if acts(k).Some? {
          SearchStep(run(k), acts(k).value);
        }
        return j;
      }
    }
  }

  /** What has landed stays on chain. */
  lemma {:induction false} ChainGrows(run: nat -> State, acts: nat -> Option<Action>, i: nat, j: nat)
    requires Endless(run, acts) && i <= j
    ensures run(i).chain <= run(j).chain
    decreases j - i
  {
    if i == j {
    } else {
      ChainGrows(run, acts, i, j - 1);
      assert Advances(run, acts, j - 1);
    }
  }

  /** The target is found. In every fair run, however many other items land and are dropped and whenever
      they are, once the target is on chain the client finds it, unless its own push finds the buffer
      full after the lookup came too early. */
  lemma TargetIsFound(run: nat -> State, acts: nat -> Option<Action>, i: nat) returns (j: nat)
    requires Endless(run, acts) && Fair(run, acts) && TARGET in run(i).chain
    ensures i <= j && (Found(run(j)) || Lost(run(j)))
    decreases Stage(run(i)), Ahead(run(i))
  {
    if !Searching(run(i)) {
      return i;
    }
    var a := Helpful(run(i));
    assert GetsItsTurn(run, acts, a, i);
    var n: nat :| i <= n && (acts(n) == Some(a) || !Enabled(run(n), a));
    var k := NearerOrWaiting(run, acts, i, n);
    ChainGrows(run, acts, i, k);
    EndlessInv(run, acts, k);
    if Searching(run(k)) && AsNear(run(k), run(i)) {
      HelpfulEnabled(run(k));
      SearchStep(run(k), a);
      assert Advances(run, acts, k);
      k := k + 1;
      ChainGrows(run, acts, i, k);
    }
    j := k;
    if Searching(run(k)) {
      j := TargetIsFound(run, acts, k);
    }
  }

  // ----- When the target is found -----

  ghost predicate AtMostOne<T>(s: seq<T>, x: T) {
    forall i, j | 0 <= i < j < |s| && s[i] == x :: s[j] != x
  }

  lemma AtMostOneTail<T>(s: seq<T>, x: T)
    requires s != [] && AtMostOne(s, x)
    ensures AtMostOne(s[1..], x)
    ensures s[0] == x ==> x !in s[1..]
  {
  }

  lemma AtMostOneSnoc<T>(s: seq<T>, x: T, y: T)
    requires AtMostOne(s, x) && (y == x ==> x !in s)
    ensures AtMostOne(s + [y], x)
  {
  }

  /** The target is pushed at most once, and is in one place at a time. */
  ghost predicate Once(s: State) {
    && AtMostOne(s.toClient, Push(TARGET)) && AtMostOne(s.buffer, TARGET)
    && (Push(TARGET) in s.toClient ==> TARGET in s.chain && TARGET !in s.buffer && !s.dropped)
    && (TARGET in s.buffer ==> TARGET in s.chain && !s.dropped)
    && (s.dropped ==> TARGET in s.chain)
  }

  lemma OnceKept(s: State, a: Action)
    requires Once(s) && Enabled(s, a)
    ensures Once(Next(s, a))
  {
    match a
    case Land(item) => AtMostOneSnoc(s.toClient, Push(TARGET), Push(item));
    case NodeHandles => AtMostOneSnoc(s.toClient, Push(TARGET), Reply(TARGET in s.chain));
    case ClientReads =>
      HeadAndTail(s.toClient);
      AtMostOneTail(s.toClient, Push(TARGET));
      if s.toClient[0].Push? {
        AtMostOneSnoc(s.buffer, TARGET, s.toClient[0].item);
      }
    case Drain =>
      HeadAndTail(s.buffer);
      AtMostOneTail(s.buffer, TARGET);
    case _ =>
  }

  /** Lost is lost, and found is found. */
  lemma OverForGood(s: State, a: Action)
    requires Inv(s) && Once(s) && Enabled(s, a)
    ensures Lost(s) ==> Lost(Next(s, a))
    ensures Found(s) ==> Found(Next(s, a))
  {
    if a.Drain? {
      assert s.buffer[0] in s.buffer;
    }
  }

  lemma {:induction false} EndlessOnce(run: nat -> State, acts: nat -> Option<Action>, i: nat)
    requires Endless(run, acts)
    ensures Once(run(i))
    decreases i
  {
    if i == 0 {
    } else {
      EndlessOnce(run, acts, i - 1);
      assert Advances(run, acts, i - 1);
      if acts(i - 1).Some? {
        OnceKept(run(i - 1), acts(i - 1).value);
      }
    }
  }

  lemma {:induction false} StaysOver(run: nat -> State, acts: nat -> Option<Action>, i: nat, j: nat)
    requires Endless(run, acts) && i <= j
    ensures Lost(run(i)) ==> Lost(run(j))
    ensures Found(run(i)) ==> Found(run(j))
    decreases j - i
  {
    if i == j {
    } else {
      StaysOver(run, acts, i, j - 1);
      EndlessInv(run, acts, j - 1);
      EndlessOnce(run, acts, j - 1);
      assert Advances(run, acts, j - 1);
      if acts(j - 1).Some? {
        OverForGood(run(j - 1), acts(j - 1).value);
      }
    }
  }

  /** Exactly then. In a fair run that brings the target on chain, the client finds it if and only if it
      is never so that the lookup came too early and the push of the target found the buffer full. What
      becomes of other items does not matter. */
  lemma FoundIff(run: nat -> State, acts: nat -> Option<Action>, i: nat)
    requires Endless(run, acts) && Fair(run, acts) && TARGET in run(i).chain
    ensures (exists j: nat :: Found(run(j))) <==> (forall j: nat :: !Lost(run(j)))
  {
    var j := TargetIsFound(run, acts, i);
    if found: nat :| Found(run(found)) {
      forall k: nat ensures !Lost(run(k)) {
        if found <= k {
          StaysOver(run, acts, found, k);
        } else {
          StaysOver(run, acts, k, found);
        }
      }
    }
  }

  /** Nothing is announced or found that has not landed. */
  ghost predicate Honest(s: State) {
    && (Found(s) || s.answer == Some(true) || Reply(true) in s.toClient ==> TARGET in s.chain)
    && (forall item | Push(item) in s.toClient :: item in s.chain)
    && (forall item | item in s.buffer :: item in s.chain)
  }

  lemma HonestKept(s: State, a: Action)
    requires Honest(s) && Enabled(s, a)
    ensures Honest(Next(s, a))
  {
    match a
    case ClientReads => HeadAndTail(s.toClient);
    case Drain => HeadAndTail(s.buffer);
    case _ =>
  }

  lemma {:induction false} FoundOnlyIfLanded(states: seq<State>, actions: seq<Action>, i: nat)
    requires Run(states, actions) && i < |states|
    ensures Honest(states[i])
    decreases i
  {
    if i == 0 {
    } else {
      FoundOnlyIfLanded(states, actions, i - 1);
      HonestKept(states[i - 1], actions[i - 1]);
    }
  }
}
