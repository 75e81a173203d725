/** What a call to sendRequest returns and why, what is in the table, and where a frame goes: over whole
    runs of RequestProtocol.dfy, told from the actions taken. */
module RequestOutcomes {
  import opened Decimal
  import opened PendingTable
  import opened RequestProtocol
  import opened Wrappers

  // ----- How a call ends -----

  /** How call `k` has ended before step `i`, if it has: at its own marshalling, write, cancellation or
      receipt, by what was so at that step. */
  ghost function Ending(states: seq<State>, actions: seq<Action>, k: nat, i: nat): Option<Outcome>
    requires i <= |actions| < |states|
  {
    if i == 0 then None
    else
      var before, s := Ending(states, actions, k, i - 1), states[i - 1];
      match actions[i - 1]
      case Marshal(j) => if j == k then Some(MarshalFailed) else before
      case Write(j, ok) =>
        if j != k then before
        else if !s.link.Up? then Some(NotConnected)
        else if !ok then Some(WriteFailed)
        else before
      case Cancel(j) => if j == k then Some(ContextDone) else before
      case Receive(j) =>
        if j != k || k >= |s.calls| || s.calls[k].offers == [] then before
        else
          var first := s.calls[k].offers[0];
          if first.response.error == "" then Some(Succeeded(first)) else Some(RequestFailed(first))
      case _ => before
  }

  function Ended(p: Phase): Option<Outcome> {
    match p
    case Leaving(o) => Some(o)
    case Returned(o) => Some(o)
    case _ => None
  }

  /** What one step does to how call `k` stands. */
  ghost predicate EndsAs(s: State, a: Action, k: nat, after: Option<Outcome>)
    requires k < |s.calls|
  {
    match a
    case Marshal(j) => after == if j == k then Some(MarshalFailed) else Ended(s.calls[k].phase)
    case Write(j, ok) =>
      after == if j == k && !s.link.Up? then Some(NotConnected)
               else if j == k && !ok then Some(WriteFailed)
               else Ended(s.calls[k].phase)
    case Cancel(j) => after == if j == k then Some(ContextDone) else Ended(s.calls[k].phase)
    case Receive(j) =>
      if j == k then
        s.calls[k].offers != [] &&
        var first := s.calls[k].offers[0];
        after == if first.response.error == "" then Some(Succeeded(first)) else Some(RequestFailed(first))
      else after == Ended(s.calls[k].phase)
    case _ => after == Ended(s.calls[k].phase)
  }

  lemma CallEnds(s: State, a: Action, k: nat)
    requires Inv(s) && Enabled(s, a) && CallStep(a) && k < |s.calls|
    ensures EndsAs(s, a, k, Ended(Next(s, a).calls[k].phase))
  {
    assert FirstOfferWins(s.calls[k]);
  }

  lemma OthersEndNothing(s: State, a: Action, k: nat)
    requires Enabled(s, a) && !CallStep(a) && k < |s.calls|
    ensures k < |Next(s, a).calls| && Next(s, a).calls[k].phase == s.calls[k].phase
  {
  }

  lemma NewcomerIsNumbered(s: State, a: Action)
    requires Enabled(s, a)
    ensures |s.calls| <= |Next(s, a).calls| <= |s.calls| + 1
    ensures |Next(s, a).calls| > |s.calls| <==> a.Begin?
    ensures a.Begin? ==> Next(s, a).calls[|s.calls|].phase.Numbered?
  {
  }

  /** A call has ended exactly as its own steps say, and it has not ended before them. */
  lemma {:induction false} OutcomeIs(states: seq<State>, actions: seq<Action>, i: nat, k: nat)
    requires Run(states, actions) && i < |states|
    ensures Ending(states, actions, k, i) ==
      if k < |states[i].calls| then Ended(states[i].calls[k].phase) else None
    decreases i
  {
    if i == 0 {
    } else {
      var s, a := states[i - 1], actions[i - 1];
      OutcomeIs(states, actions, i - 1, k);
      RunInv(states, actions, i - 1);
      assert Stepped(states, actions, i - 1);
      NewcomerIsNumbered(s, a);
      if k < |s.calls| {
        if CallStep(a) {
          CallEnds(s, a, k);
        } else {
          OthersEndNothing(s, a, k);
        }
      }
    }
  }

  /** The verdict on a write: without a connection to write to it is refused as not connected, a failed
      one fails, and after a good one the call waits on the connection that carries its request. */
  lemma WriteDecides(states: seq<State>, actions: seq<Action>, i: nat, k: nat, ok: bool)
    requires Run(states, actions) && i < |actions| && actions[i] == Write(k, ok)
    ensures k < |states[i].calls| && k < |states[i + 1].calls|
    ensures states[i + 1].calls[k].phase ==
      if !states[i].link.Up? then Leaving(NotConnected)
      else if !ok then Leaving(WriteFailed)
      else Waiting(states[i].generation)
  {
    RunInv(states, actions, i);
    assert Stepped(states, actions, i);
  }

  lemma WaitingStays(s: State, a: Action, k: nat)
    requires Enabled(s, a) && k < |s.calls| && s.calls[k].phase.Waiting?
    ensures k < |Next(s, a).calls|
    ensures Next(s, a).calls[k].phase == s.calls[k].phase || Next(s, a).calls[k].phase.Leaving?
  {
  }

  /** After a good write a call waits on the connection it wrote to, until it has ended. */
  lemma {:induction false} WaitsWhereItWrote(states: seq<State>, actions: seq<Action>, r: nat, i: nat, k: nat)
    requires Run(states, actions) && r < i < |states| && actions[r] == Write(k, true) && states[r].link.Up?
    requires Ending(states, actions, k, i) == None
    ensures k < |states[i].calls| && states[i].calls[k].phase == Waiting(states[r].generation)
    decreases i
  {
    WriteDecides(states, actions, r, k, true);
    if i == r + 1 {
    } else {
      OutcomeIs(states, actions, i, k);
      OutcomeIs(states, actions, i - 1, k);
      StillOpen(states, actions, i, k);
      WaitsWhereItWrote(states, actions, r, i - 1, k);
      assert Stepped(states, actions, i - 1);
      WaitingStays(states[i - 1], actions[i - 1], k);
    }
  }

  /** What has ended has ended for good. */
  lemma StillOpen(states: seq<State>, actions: seq<Action>, i: nat, k: nat)
    requires 0 < i <= |actions| < |states| && Ending(states, actions, k, i) == None
    ensures Ending(states, actions, k, i - 1) == None
  {
  }

  /** No orphaned request, told from the write: a call that wrote its request to a connection, and has
      not ended when that connection has been torn down, can receive, and what it receives is the first
      thing offered to it, genuine and under its own id. */
  lemma NoWriterIsOrphaned(states: seq<State>, actions: seq<Action>, r: nat, i: nat, k: nat)
    requires Run(states, actions) && r < i < |states| && actions[r] == Write(k, true) && states[r].link.Up?
    requires Ending(states, actions, k, i) == None && TornDown(states[i], states[r].generation)
    ensures k < |states[i].calls| && states[i].calls[k].offers != [] && Enabled(states[i], Receive(k))
    ensures Genuine(states[i], states[i].calls[k].offers[0], RequestId(k))
  {
    WaitsWhereItWrote(states, actions, r, i, k);
    NoOrphanedRequest(states, actions, i, k);
  }

  /** Call `k` has returned: after a marshalling that failed, or having removed its entry. */
  predicate HasReturned(actions: seq<Action>, k: nat, i: nat)
    requires i <= |actions|
  {
    i > 0 && (actions[i - 1] == Marshal(k) || actions[i - 1] == Deregister(k) || HasReturned(actions, k, i - 1))
  }

  lemma ReturnNext(s: State, a: Action, k: nat)
    requires Enabled(s, a) && k < |s.calls|
    ensures k < |Next(s, a).calls|
    ensures Next(s, a).calls[k].phase.Returned? <==>
      s.calls[k].phase.Returned? || a == Marshal(k) || a == Deregister(k)
  {
  }

  lemma {:induction false} ReturnedIff(states: seq<State>, actions: seq<Action>, i: nat, k: nat)
    requires Run(states, actions) && i < |states|
    ensures HasReturned(actions, k, i) <==> k < |states[i].calls| && states[i].calls[k].phase.Returned?
    decreases i
  {
    if i == 0 {
    } else {
      var s, a := states[i - 1], actions[i - 1];
      ReturnedIff(states, actions, i - 1, k);
      assert Stepped(states, actions, i - 1);
      NewcomerIsNumbered(s, a);
      if k < |s.calls| {
        ReturnNext(s, a, k);
      }
    }
  }

  /** What a call returns is what its own steps made of it, both ways. A success is a frame read from a
      socket, under the call's id and without an error; the failure a teardown hands out is never one. */
  lemma ReturnsAsItEnded(states: seq<State>, actions: seq<Action>, i: nat, k: nat, o: Outcome)
    requires Run(states, actions) && i < |states| && k < |states[i].calls|
    ensures states[i].calls[k].phase == Returned(o) <==>
      HasReturned(actions, k, i) && Ending(states, actions, k, i) == Some(o)
    ensures states[i].calls[k].phase == Returned(o) && o.Succeeded? ==>
      && o.delivery.origin.Wire? && o.delivery.origin.frame < |states[i].wire|
      && states[i].wire[o.delivery.origin.frame] == o.delivery.response
      && o.delivery.response.id == RequestId(k) && o.delivery.response.error == ""
    ensures states[i].calls[k].phase == Returned(o) && Carried(o).Some? && Carried(o).value.origin.Teardown? ==>
      o.RequestFailed?
  {
    OutcomeIs(states, actions, i, k);
    ReturnedIff(states, actions, i, k);
    if states[i].calls[k].phase == Returned(o) && Carried(o).Some? {
      ReturnsOwnFirstReply(states, actions, i, k, Carried(o).value);
      RunInv(states, actions, i);
      assert Genuine(states[i], states[i].calls[k].offers[0], RequestId(k));
      JudgedByError(states, actions, i, k);
    }
  }

  /** A delivery counts as a success or as a failure by its error alone. */
  lemma {:induction false} JudgedByError(states: seq<State>, actions: seq<Action>, i: nat, k: nat)
    requires i <= |actions| < |states|
    ensures match Ending(states, actions, k, i)
      case Some(Succeeded(d)) => d.response.error == ""
      case Some(RequestFailed(d)) => d.response.error != ""
      case _ => true
    decreases i
  {
    if i == 0 {
    } else {
      JudgedByError(states, actions, i - 1, k);
    }
  }

  // ----- What is in the table -----

  /** Call `k` has registered, and since then it has not removed its entry and no teardown has emptied
      the table. */
  predicate InTable(actions: seq<Action>, k: nat, i: nat)
    requires i <= |actions|
  {
    i > 0 &&
    match actions[i - 1]
    case Register(j) => j == k || InTable(actions, k, i - 1)
    case Deregister(j) => j != k && InTable(actions, k, i - 1)
    case FailEnd => false
    case _ => InTable(actions, k, i - 1)
  }

  lemma TableNext(s: State, a: Action, k: nat)
    requires Inv(s) && Enabled(s, a) && k < |s.calls|
    ensures RequestId(k) in Next(s, a).pending <==>
      match a
      case Register(j) => j == k || RequestId(k) in s.pending
      case Deregister(j) => j != k && RequestId(k) in s.pending
      case FailEnd => false
      case _ => RequestId(k) in s.pending
  {
    match a
    case Register(j) => if RequestId(j) == RequestId(k) { RequestIdsDistinct(j, k); }
    case Deregister(j) => if RequestId(j) == RequestId(k) { RequestIdsDistinct(j, k); }
    case _ =>
  }

  lemma NewcomerNotInTable(s: State, a: Action)
    requires Inv(s) && Enabled(s, a) && a.Begin?
    ensures RequestId(|s.calls|) !in Next(s, a).pending
  {
    if RequestId(|s.calls|) in s.pending {
      RequestIdsDistinct(s.pending[RequestId(|s.calls|)], |s.calls|);
    }
  }

  /** The table holds exactly the ids of those calls, each leading to its own call. */
  lemma {:induction false} TableIs(states: seq<State>, actions: seq<Action>, i: nat, k: nat)
    requires Run(states, actions) && i < |states|
    ensures InTable(actions, k, i) ==> k < |states[i].calls|
    ensures k < |states[i].calls| ==>
      (InTable(actions, k, i) <==> RequestId(k) in states[i].pending)
      && (InTable(actions, k, i) ==> states[i].pending[RequestId(k)] == k)
    decreases i
  {
    RunInv(states, actions, i);
    if k < |states[i].calls| && RequestId(k) in states[i].pending {
      RequestIdsDistinct(states[i].pending[RequestId(k)], k);
    }
    if i == 0 {
    } else {
      var s, a := states[i - 1], actions[i - 1];
      TableIs(states, actions, i - 1, k);
      RunInv(states, actions, i - 1);
      assert Stepped(states, actions, i - 1);
      NewcomerIsNumbered(s, a);
      if k < |s.calls| {
        TableNext(s, a, k);
      } else if a.Begin? {
        NewcomerNotInTable(s, a);
      }
    }
  }

  // ----- Where a frame goes -----

  predicate OfReader(a: Action, g: nat) {
    match a
    case ReadFrame(h, _) => h == g
    case Lookup(h) => h == g
    case Send(h) => h == g
    case ReaderExit(h) => h == g
    case _ => false
  }

  lemma ReaderUntouched(s: State, a: Action, g: nat)
    requires ReadersOk(s) && Enabled(s, a) && g in s.readers && !OfReader(a, g)
    ensures g in Next(s, a).readers && Next(s, a).readers[g] == s.readers[g]
  {
  }

  /** Nobody else moves a read loop. */
  lemma {:induction false} ReaderWaits(states: seq<State>, actions: seq<Action>, i: nat, j: nat, g: nat)
    requires Run(states, actions) && i <= j < |states| && g in states[i].readers
    requires forall n | i <= n < j :: !OfReader(actions[n], g)
    ensures g in states[j].readers && states[j].readers[g] == states[i].readers[g]
    decreases j - i
  {
    if i == j {
    } else {
      ReaderWaits(states, actions, i, j - 1, g);
      RunInv(states, actions, j - 1);
      assert Stepped(states, actions, j - 1);
      ReaderUntouched(states[j - 1], actions[j - 1], g);
    }
  }

  lemma ReadFinds(states: seq<State>, actions: seq<Action>, i: nat)
    requires Run(states, actions) && i < |actions| && actions[i].ReadFrame?
    ensures var g := actions[i].reader;
      g in states[i + 1].readers
      && states[i + 1].readers[g] == Found(Delivery(actions[i].response, Wire(|states[i].wire|)))
    ensures states[i + 1].wire == states[i].wire + [actions[i].response]
  {
    assert Stepped(states, actions, i);
  }

  /** A frame that has been read and looked up: a read loop sends it to the call under its id exactly if
      that call was in the table at the lookup, and else drops it. */
  lemma FrameIsLookedUp(states: seq<State>, actions: seq<Action>, i: nat, j: nat, g: nat, k: nat)
    requires Run(states, actions) && i < j < |actions|
    requires actions[i].ReadFrame? && actions[i].reader == g && actions[j] == Lookup(g)
    requires forall n | i < n < j :: !OfReader(actions[n], g)
    requires k < |states[j].calls|
    ensures g in states[j + 1].readers
    ensures states[j + 1].readers[g] == Sending(k, Delivery(actions[i].response, Wire(|states[i].wire|))) <==>
      RequestId(k) == actions[i].response.id && InTable(actions, k, j)
    ensures states[j + 1].readers[g].Sending? || states[j + 1].readers[g].Reading?
  {
    ReadFinds(states, actions, i);
    ReaderWaits(states, actions, i + 1, j, g);
    RunInv(states, actions, j);
    assert Stepped(states, actions, j);
    TableIs(states, actions, j, k);
  }

  /** From the socket to the call: a frame read under the id of a call that is in the table when it is
      looked up is offered to that call when it is sent, and to no other. */
  lemma FrameIsOffered(states: seq<State>, actions: seq<Action>, i: nat, j: nat, l: nat, g: nat, k: nat)
    requires Run(states, actions) && i < j < l < |actions|
    requires actions[i].ReadFrame? && actions[i].reader == g && actions[j] == Lookup(g) && actions[l] == Send(g)
    requires forall n | i < n < l && n != j :: !OfReader(actions[n], g)
    requires k < |states[j].calls| && RequestId(k) == actions[i].response.id && InTable(actions, k, j)
    ensures |states[l].calls| == |states[l + 1].calls| && k < |states[l].calls|
    ensures forall c | 0 <= c < |states[l].calls| ::
      (states[l + 1].calls[c].offers == states[l].calls[c].offers
         + if c == k then [Delivery(actions[i].response, Wire(|states[i].wire|))] else [])
  {
    FrameIsLookedUp(states, actions, i, j, g, k);
    ReaderWaits(states, actions, j + 1, l, g);
    RunInv(states, actions, l);
    assert Stepped(states, actions, l);
  }

  lemma ExitNext(s: State, a: Action, g: nat)
    requires Enabled(s, a) && g !in s.readers && g <= s.generation
    ensures g !in Next(s, a).readers
  {
  }

  /** A read loop that has ended reads, looks up and sends nothing more. */
  lemma {:induction false} ReaderStaysOut(states: seq<State>, actions: seq<Action>, i: nat, j: nat, g: nat)
    requires Run(states, actions) && i < j < |states| && actions[i] == ReaderExit(g)
    ensures g !in states[j].readers && g <= states[j].generation
    decreases j
  {
    RunInv(states, actions, i);
    RunInv(states, actions, j);
    assert Stepped(states, actions, j - 1);
    if j == i + 1 {
    } else {
      ReaderStaysOut(states, actions, i, j - 1, g);
      ExitNext(states[j - 1], actions[j - 1], g);
      StepsOn(states[j - 1], actions[j - 1]);
    }
  }

  // ----- A request that is answered -----

  /** An action taken at the end of a run that is being built. */
  lemma Does(states: seq<State>, actions: seq<Action>, a: Action) returns (more: seq<State>, longer: seq<Action>)
    requires Run(states, actions) && Enabled(states[|states| - 1], a)
    ensures Run(more, longer) && more[|more| - 1] == Next(states[|states| - 1], a)
  {
    more, longer := states + [Next(states[|states| - 1], a)], actions + [a];
    forall i | 0 <= i < |longer| ensures Stepped(more, longer, i) {
      if i < |actions| {
        assert Stepped(states, actions, i);
      }
    }
  }

  lemma StartRun() returns (states: seq<State>, actions: seq<Action>)
    ensures Run(states, actions) && states[|states| - 1] == INIT
  {
    states, actions := [INIT], [];
  }

  /** A first call that has written its request. */
  lemma Asks() returns (states: seq<State>, actions: seq<Action>)
    ensures Run(states, actions)
    ensures var s := states[|states| - 1];
      && s.calls == [Call(Waiting(1), None, [])] && s.pending == map[RequestId(0) := 0]
      && s.readers == map[1 := Reading] && s.wire == [] && s.link == Up && s.generation == 1
  {
    states, actions := StartRun();
    states, actions := Does(states, actions, Connect);
    states, actions := Does(states, actions, Begin);
    states, actions := Does(states, actions, Register(0));
    states, actions := Does(states, actions, Write(0, true));
  }

  /** A request can be answered: whatever the node replies, there is a run in which the call returns that
      reply, as a success if it bears no error. */
  lemma ReplyReturns(data: string, error: string) returns (states: seq<State>, actions: seq<Action>)
    ensures Run(states, actions)
    ensures var s := states[|states| - 1]; var d := Delivery(Response(RequestId(0), data, error), Wire(0));
      |s.calls| == 1 && s.calls[0].phase == Returned(if error == "" then Succeeded(d) else RequestFailed(d))
  {
    states, actions := Asks();
    states, actions := Does(states, actions, ReadFrame(1, Response(RequestId(0), data, error)));
    states, actions := Does(states, actions, Lookup(1));
    states, actions := Does(states, actions, Send(1));
    states, actions := Does(states, actions, Receive(0));
    states, actions := Does(states, actions, Deregister(0));
  }

  /** A call that is about to be written. */
  lemma Registers() returns (states: seq<State>, actions: seq<Action>)
    ensures Run(states, actions)
    ensures var s := states[|states| - 1];
      s.calls == [Call(Registered, None, [])] && s.link == Down && s.active == None && s.generation == 0
  {
    states, actions := StartRun();
    states, actions := Does(states, actions, Begin);
    states, actions := Does(states, actions, Register(0));
  }

  /** Every other outcome happens, too. */
  lemma CanEndAs(o: Outcome) returns (states: seq<State>, actions: seq<Action>)
    requires Carried(o).None?
    ensures Run(states, actions)
    ensures var s := states[|states| - 1]; |s.calls| == 1 && s.calls[0].phase == Returned(o)
  {
    match o {
      case MarshalFailed =>
        states, actions := StartRun();
        states, actions := Does(states, actions, Begin);
        states, actions := Does(states, actions, Marshal(0));
      case NotConnected =>
        states, actions := Registers();
        states, actions := Does(states, actions, Write(0, true));
        states, actions := Does(states, actions, Deregister(0));
      case WriteFailed =>
        states, actions := Registers();
        states, actions := Does(states, actions, Connect);
        states, actions := Does(states, actions, Write(0, false));
        states, actions := Does(states, actions, Deregister(0));
      case ContextDone =>
        states, actions := Asks();
        states, actions := Does(states, actions, Cancel(0));
        states, actions := Does(states, actions, Deregister(0));
    }
  }

  /** And a teardown ends the wait of a call with a failure. */
  lemma TeardownFailsCall() returns (states: seq<State>, actions: seq<Action>)
    ensures Run(states, actions)
    ensures var s := states[|states| - 1]; var d := Delivery(ConnectionClosed(RequestId(0)), Teardown(1));
      |s.calls| == 1 && s.calls[0].phase == Leaving(RequestFailed(d)) && s.link == Down && s.pending == map[]
  {
    states, actions := Asks();
    states, actions := Does(states, actions, ClearActive);
    states, actions := Does(states, actions, CloseSocket);
    states, actions := Does(states, actions, FailBegin);
    states, actions := Does(states, actions, FailOne(RequestId(0)));
    assert states[|states| - 1].link.todo == {};
    states, actions := Does(states, actions, FailEnd);
    states, actions := Does(states, actions, Receive(0));
  }
}
