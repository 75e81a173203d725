/** Counting events and reading the counters at the same time: recordEvent (web/broker/broker.go) and
    snapshot (web/broker/stats.go), interleaved at single atomic operations. */
module Stats {

  datatype Kind = Blocks | Transactions | UserTransactions | Accounts | Other

  datatype Counters = Counters(blocks: nat, txs: nat, userTxs: nat, accounts: nat, other: nat)

  function Bump(c: Counters, k: Kind): Counters {
    match k
    case Blocks => c.(blocks := c.blocks + 1)
    case Transactions => c.(txs := c.txs + 1)
    case UserTransactions => c.(userTxs := c.userTxs + 1)
    case Accounts => c.(accounts := c.accounts + 1)
    case Other => c.(other := c.other + 1)
  }

  function Sum(c: Counters): nat {
    c.blocks + c.txs + c.userTxs + c.accounts + c.other
  }

  /** A snapshot being taken: what has been loaded, in the order in which the code loads. */
  datatype Reader =
    | Loaded0
    | Loaded1(blocks: nat)
    | Loaded2(blocks: nat, txs: nat)
    | Loaded3(blocks: nat, txs: nat, userTxs: nat)
    | Loaded4(blocks: nat, txs: nat, userTxs: nat, accounts: nat)
    | Taken(blocks: nat, txs: nat, userTxs: nat, accounts: nat, total: nat)

  /** `recording` maps the recorders between their two increments to the kind of their event. */
  datatype State = State(total: nat, counters: Counters, recording: map<nat, Kind>, readers: map<nat, Reader>)

  datatype Action =
    | AddTotal(recorder: nat, kind: Kind)
    | AddCounter(recorder: nat)
    | BeginSnapshot(reader: nat)
    | Load(reader: nat)

  const INIT := State(0, Counters(0, 0, 0, 0, 0), map[], map[])

  predicate Enabled(s: State, a: Action) {
    match a
    case AddTotal(r, k) => r !in s.recording
    case AddCounter(r) => r in s.recording
    case BeginSnapshot(i) => i !in s.readers
    case Load(i) => i in s.readers && !s.readers[i].Taken?
  }

  function NextLoad(s: State, r: Reader): Reader
    requires !r.Taken?
  {
    match r
    case Loaded0 => Loaded1(s.counters.blocks)
    case Loaded1(b) => Loaded2(b, s.counters.txs)
    case Loaded2(b, t) => Loaded3(b, t, s.counters.userTxs)
    case Loaded3(b, t, u) => Loaded4(b, t, u, s.counters.accounts)
    case Loaded4(b, t, u, a) => Taken(b, t, u, a, s.total)
  }

  function Next(s: State, a: Action): State
    requires Enabled(s, a)
  {
    match a
    case AddTotal(r, k) => s.(total := s.total + 1, recording := s.recording[r := k])
    case AddCounter(r) => s.(counters := Bump(s.counters, s.recording[r]), recording := s.recording - {r})
    case BeginSnapshot(i) => s.(readers := s.readers[i := Loaded0])
    case Load(i) => s.(readers := s.readers[i := NextLoad(s, s.readers[i])])
  }

  /** What a reader has loaded of each counter is at most what the counter shows now, and a snapshot
      that has been taken is ordered. */
  ghost predicate ReaderOk(s: State, r: Reader) {
    match r
    case Loaded0 => true
    case Loaded1(b) => b <= s.counters.blocks
    case Loaded2(b, t) => b <= s.counters.blocks && t <= s.counters.txs
    case Loaded3(b, t, u) => b <= s.counters.blocks && t <= s.counters.txs && u <= s.counters.userTxs
    case Loaded4(b, t, u, a) =>
      b <= s.counters.blocks && t <= s.counters.txs && u <= s.counters.userTxs && a <= s.counters.accounts
    case Taken(b, t, u, a, total) =>
      && b <= s.counters.blocks && t <= s.counters.txs && u <= s.counters.userTxs && a <= s.counters.accounts
      && b + t + u + a <= total <= s.total
  }

  ghost predicate Inv(s: State) {
    && TotalOk(s)
    && forall i | i in s.readers :: ReaderOk(s, s.readers[i])
  }

  lemma SumBumped(c: Counters, k: Kind)
    ensures Sum(Bump(c, k)) == Sum(c) + 1
  {
  }

  lemma OneMore(m: map<nat, Kind>, r: nat, k: Kind)
    requires r !in m
    ensures |m[r := k]| == |m| + 1
  {
    assert m[r := k].Keys == m.Keys + {r};
  }

  lemma OneLess(m: map<nat, Kind>, r: nat)
    requires r in m
    ensures |m - {r}| == |m| - 1
  {
    assert (m - {r}).Keys == m.Keys - {r};
  }

  /** The total is ahead of the counters by the events between their two increments. */
  ghost predicate TotalOk(s: State) {
    s.total == Sum(s.counters) + |s.recording|
  }

  lemma TotalKept(s: State, a: Action)
    requires TotalOk(s) && Enabled(s, a)
    ensures TotalOk(Next(s, a))
  {
    match a
    case AddTotal(r, k) => OneMore(s.recording, r, k);
    case AddCounter(r) =>
      OneLess(s.recording, r);
      SumBumped(s.counters, s.recording[r]);
    case _ =>
  }

  /** Counters only grow, so what was loaded stays a lower bound. */
  lemma ReaderStaysOk(s: State, a: Action, r: Reader)
    requires Enabled(s, a) && ReaderOk(s, r)
    ensures ReaderOk(Next(s, a), r)
  {
  }

  lemma LoadOk(s: State, r: Reader)
    requires TotalOk(s) && ReaderOk(s, r) && !r.Taken?
    ensures ReaderOk(s, NextLoad(s, r))
  {
  }

  lemma StepInv(s: State, a: Action)
    requires Inv(s) && Enabled(s, a)
    ensures Inv(Next(s, a))
  {
    TotalKept(s, a);
    forall i | i in Next(s, a).readers ensures ReaderOk(Next(s, a), Next(s, a).readers[i]) {
      if i in s.readers {
        ReaderStaysOk(s, a, s.readers[i]);
        if a == Load(i) {
          LoadOk(s, s.readers[i]);
        }
      }
    }
  }

  lemma InitInv()
    ensures Inv(INIT)
  {
  }

  ghost predicate Run(states: seq<State>, actions: seq<Action>) {
    && |states| == |actions| + 1
    && states[0] == INIT
    && forall i | 0 <= i < |actions| :: Enabled(states[i], actions[i]) && states[i + 1] == Next(states[i], actions[i])
  }

  lemma {:induction false} RunInv(states: seq<State>, actions: seq<Action>, i: nat)
    requires Run(states, actions) && i < |states|
    ensures Inv(states[i])
    decreases i
  {
    if i == 0 {
      InitInv();
    } else {
      RunInv(states, actions, i - 1);
      StepInv(states[i - 1], actions[i - 1]);
    }
  }

  // ----- What is counted -----

  /** The kind of the event that `recorder` has counted in the total and not yet under its kind. */
  function Holding(actions: seq<Action>, recorder: nat, i: nat): (kind: seq<Kind>)
    requires i <= |actions|
  {
    if i == 0 then []
    else
      match actions[i - 1]
      case AddTotal(r, k) => if r == recorder then [k] else Holding(actions, recorder, i - 1)
      case AddCounter(r) => if r == recorder then [] else Holding(actions, recorder, i - 1)
      case _ => Holding(actions, recorder, i - 1)
  }

  /** How many events of `kind` have been recorded to the end. */
  function Recorded(actions: seq<Action>, kind: Kind, i: nat): nat
    requires i <= |actions|
  {
    if i == 0 then 0
    else Recorded(actions, kind, i - 1)
         + match actions[i - 1]
           case AddCounter(r) => if Holding(actions, r, i - 1) == [kind] then 1 else 0
           case _ => 0
  }

  /** How many events have been counted in the total. */
  function Seen(actions: seq<Action>, i: nat): nat
    requires i <= |actions|
  {
    if i == 0 then 0 else Seen(actions, i - 1) + if actions[i - 1].AddTotal? then 1 else 0
  }

  lemma {:induction false} HoldingIs(states: seq<State>, actions: seq<Action>, i: nat, r: nat)
    requires Run(states, actions) && i < |states|
    ensures Holding(actions, r, i) == if r in states[i].recording then [states[i].recording[r]] else []
    decreases i
  {
    if i == 0 {
    } else {
      HoldingIs(states, actions, i - 1, r);
    }
  }

  /** Every counter is the number of finished recordings of its own kind, and the total the number of
      events seen. */
  lemma {:induction false} CountsByKind(states: seq<State>, actions: seq<Action>, i: nat)
    requires Run(states, actions) && i < |states|
    ensures var c := states[i].counters;
      && c.blocks == Recorded(actions, Blocks, i) && c.txs == Recorded(actions, Transactions, i)
      && c.userTxs == Recorded(actions, UserTransactions, i) && c.accounts == Recorded(actions, Accounts, i)
      && c.other == Recorded(actions, Other, i) && states[i].total == Seen(actions, i)
    decreases i
  {
    if i == 0 {
    } else {
      CountsByKind(states, actions, i - 1);
      if actions[i - 1].AddCounter? {
        HoldingIs(states, actions, i - 1, actions[i - 1].recorder);
      }
    }
  }

  lemma CountersGrow(s: State, a: Action)
    requires Enabled(s, a)
    ensures var c, d := s.counters, Next(s, a).counters;
      && c.blocks <= d.blocks && c.txs <= d.txs && c.userTxs <= d.userTxs && c.accounts <= d.accounts
      && s.total <= Next(s, a).total
  {
  }

  /** What a reader has loaded of each counter is at least what it showed at some earlier moment. */
  ghost predicate NoLess(s: State, r: Reader) {
    match r
    case Loaded0 => true
    case Loaded1(b) => s.counters.blocks <= b
    case Loaded2(b, t) => s.counters.blocks <= b && s.counters.txs <= t
    case Loaded3(b, t, u) => s.counters.blocks <= b && s.counters.txs <= t && s.counters.userTxs <= u
    case Loaded4(b, t, u, a) =>
      && s.counters.blocks <= b && s.counters.txs <= t && s.counters.userTxs <= u
      && s.counters.accounts <= a
    case Taken(b, t, u, a, total) =>
      && s.counters.blocks <= b && s.counters.txs <= t && s.counters.userTxs <= u
      && s.counters.accounts <= a && s.total <= total
  }

  lemma {:induction false} LoadsNoLess(states: seq<State>, actions: seq<Action>, i: nat, j: nat, reader: nat)
    requires Run(states, actions) && i < j < |states| && actions[i] == BeginSnapshot(reader)
    ensures reader in states[j].readers && NoLess(states[i], states[j].readers[reader])
    ensures var c, d := states[i].counters, states[j].counters;
      && c.blocks <= d.blocks && c.txs <= d.txs && c.userTxs <= d.userTxs && c.accounts <= d.accounts
      && states[i].total <= states[j].total
    decreases j
  {
    CountersGrow(states[j - 1], actions[j - 1]);
    if j == i + 1 {
    } else {
      LoadsNoLess(states, actions, i, j - 1, reader);
    }
  }

  function Stage(r: Reader): nat {
    match r
    case Loaded0 => 0
    case Loaded1(_) => 1
    case Loaded2(_, _) => 2
    case Loaded3(_, _, _) => 3
    case Loaded4(_, _, _, _) => 4
    case Taken(_, _, _, _, _) => 5
  }

  /** How many loads `reader` has done in the steps `i`, ..., `j - 1`. */
  function Loads(actions: seq<Action>, reader: nat, i: nat, j: nat): nat
    requires j <= |actions|
    decreases j
  {
    if j <= i then 0 else Loads(actions, reader, i, j - 1) + if actions[j - 1] == Load(reader) then 1 else 0
  }

  lemma StageNext(s: State, a: Action, reader: nat)
    requires Enabled(s, a) && reader in s.readers
    ensures reader in Next(s, a).readers
    ensures Stage(Next(s, a).readers[reader]) == Stage(s.readers[reader]) + if a == Load(reader) then 1 else 0
  {
  }

  /** A snapshot is taken by exactly five loads, whatever is counted meanwhile. */
  lemma {:induction false} FiveLoads(states: seq<State>, actions: seq<Action>, i: nat, j: nat, reader: nat)
    requires Run(states, actions) && i < j < |states| && actions[i] == BeginSnapshot(reader)
    ensures reader in states[j].readers && Stage(states[j].readers[reader]) == Loads(actions, reader, i + 1, j) <= 5
    ensures states[j].readers[reader].Taken? <==> Loads(actions, reader, i + 1, j) == 5
    decreases j
  {
    if j == i + 1 {
    } else {
      FiveLoads(states, actions, i, j - 1, reader);
      StageNext(states[j - 1], actions[j - 1], reader);
    }
  }

  /** A snapshot shows each counter as it was at some moment between its beginning and its end. */
  lemma SnapshotBracketed(states: seq<State>, actions: seq<Action>, i: nat, j: nat, reader: nat)
    requires Run(states, actions) && i < j < |states| && actions[i] == BeginSnapshot(reader)
    requires reader in states[j].readers && states[j].readers[reader].Taken?
    ensures var r, s, t := states[j].readers[reader], states[i], states[j];
      && s.counters.blocks <= r.blocks <= t.counters.blocks && s.counters.txs <= r.txs <= t.counters.txs
      && s.counters.userTxs <= r.userTxs <= t.counters.userTxs
      && s.counters.accounts <= r.accounts <= t.counters.accounts && s.total <= r.total <= t.total
  {
    LoadsNoLess(states, actions, i, j, reader);
    RunInv(states, actions, j);
    assert ReaderOk(states[j], states[j].readers[reader]);
  }

  /** A snapshot taken while events are being counted never shows more events by type than in total. */
  lemma SnapshotOrdered(states: seq<State>, actions: seq<Action>, i: nat, reader: nat)
    requires Run(states, actions) && i < |states|
    requires reader in states[i].readers && states[i].readers[reader].Taken?
    ensures var r := states[i].readers[reader]; r.blocks + r.txs + r.userTxs + r.accounts <= r.total
  {
    RunInv(states, actions, i);
    assert ReaderOk(states[i], states[i].readers[reader]);
  }

  /** The total runs ahead by exactly the events half counted; at rest it is the sum. */
  lemma TotalIsSumAtRest(states: seq<State>, actions: seq<Action>, i: nat)
    requires Run(states, actions) && i < |states|
    ensures var s := states[i];
      s.total == Sum(s.counters) + |s.recording| && (s.recording == map[] ==> s.total == Sum(s.counters))
  {
    RunInv(states, actions, i);
  }
}
