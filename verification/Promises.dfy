/** What becomes of a promise, and what a listener hears: over whole runs of BrowserClient.dfy, told from
    the events alone. */
module Promises {
  import opened BrowserClient
  import opened Decimal
  import opened Wrappers

  // ----- Listeners -----

  /** What the messages received before step `i` have been announced as: an event if the message has a
      kind, an error if it has an error and no kind; nothing for a message that answers a pending
      request, or cannot be parsed, or has neither. */
  ghost function Heard(states: seq<Client>, events: seq<Event>, i: nat): seq<Emission>
    requires i <= |events| < |states|
  {
    if i == 0 then []
    else
      var before := Heard(states, events, i - 1);
      match events[i - 1]
      case Receive(Message(id, error, kind, data)) =>
        if id != "" && id in states[i - 1].pending then before
        else if kind != "" then before + [EmitEvent(Message(id, error, kind, data))]
        else if error != "" then before + [EmitError(error)]
        else before
      case _ => before
  }

  lemma EmitsNext(c: Client, e: Event)
    requires Enabled(c, e)
    ensures Next(c, e).emitted ==
      match e
      case Receive(Message(id, error, kind, data)) =>
        if id != "" && id in c.pending then c.emitted
        else if kind != "" then c.emitted + [EmitEvent(Message(id, error, kind, data))]
        else if error != "" then c.emitted + [EmitError(error)]
        else c.emitted
      case _ => c.emitted
  {
  }

  /** Listeners hear of exactly those messages, in order; nothing else makes them hear anything. */
  lemma {:induction false} ListenersHear(states: seq<Client>, events: seq<Event>, i: nat)
    requires Run(states, events) && i < |states|
    ensures states[i].emitted == Heard(states, events, i)
    decreases i
  {
    if i == 0 {
    } else {
      ListenersHear(states, events, i - 1);
      EmitsNext(states[i - 1], events[i - 1]);
    }
  }

  // ----- Sockets -----

  /** The socket of the last `connect`, unless some socket has closed since. */
  function Current(events: seq<Event>, i: nat): Option<nat>
    requires i <= |events|
  {
    if i == 0 then None
    else
      match events[i - 1]
      case Connect(s) => Some(s)
      case Lost(_) => None
      case _ => Current(events, i - 1)
  }

  /** Socket `s` has opened, and neither begun to close nor closed since. */
  function IsUp(events: seq<Event>, s: nat, i: nat): bool
    requires i <= |events|
  {
    i > 0 &&
    match events[i - 1]
    case Opened(t) => t == s || IsUp(events, s, i - 1)
    case Closing(t) => t != s && IsUp(events, s, i - 1)
    case Lost(t) => t != s && IsUp(events, s, i - 1)
    case _ => IsUp(events, s, i - 1)
  }

  /** The client's sockets are what their events say; so `isOpen` is true exactly between the opening of
      the current socket and its closing. */
  lemma {:induction false} SocketsFollow(states: seq<Client>, events: seq<Event>, i: nat)
    requires Run(states, events) && i < |states|
    ensures states[i].socket == Current(events, i)
    ensures forall s: nat :: s in states[i].open <==> IsUp(events, s, i)
    ensures IsOpen(states[i]) <==> Current(events, i).Some? && IsUp(events, Current(events, i).value, i)
    decreases i
  {
    if i == 0 {
    } else {
      SocketsFollow(states, events, i - 1);
    }
  }

  // ----- Frames -----

  /** Requests are numbered from 1 in the order in which they are sent. */
  ghost predicate Numbered(c: Client) {
    c.nextId == |c.sent| && forall i | 0 <= i < |c.sent| :: c.sent[i].id == FormatInt(i + 1)
  }

  lemma NumberedNext(c: Client, e: Event)
    requires Numbered(c) && Enabled(c, e)
    ensures Numbered(Next(c, e))
  {
  }

  lemma {:induction false} FramesNumbered(states: seq<Client>, events: seq<Event>, i: nat)
    requires Run(states, events) && i < |states|
    ensures Numbered(states[i])
    decreases i
  {
    if i == 0 {
    } else {
      FramesNumbered(states, events, i - 1);
      NumberedNext(states[i - 1], events[i - 1]);
    }
  }

  /** No two frames of a run bear the same id. */
  lemma FrameIdsDistinct(states: seq<Client>, events: seq<Event>, i: nat, m: nat, n: nat)
    requires Run(states, events) && i < |states| && m < |states[i].sent| && n < |states[i].sent|
    requires states[i].sent[m].id == states[i].sent[n].id
    ensures m == n
  {
    FramesNumbered(states, events, i);
    FormatIntInjective(m + 1, n + 1);
  }

  /** A request on an open socket sends one frame, on that socket, with what was asked; a new promise
      waits under the id of that frame. On any other it sends nothing and its promise is rejected. */
  lemma RequestSends(states: seq<Client>, events: seq<Event>, r: nat)
    requires Run(states, events) && r < |events| && events[r].Request?
    ensures var c, d, p := states[r], states[r + 1], |states[r].settled|;
      && |d.settled| == p + 1
      && if IsOpen(c) then
           && d.sent == c.sent + [Frame(c.socket.value, FormatInt(|c.sent| + 1), events[r].body)]
           && d.settled[p] == [] && FormatInt(|c.sent| + 1) in d.pending && d.pending[FormatInt(|c.sent| + 1)] == p
         else
           d.sent == c.sent && d.settled[p] == [NotConnected] && d.pending == c.pending
  {
    FramesNumbered(states, events, r);
  }

  // ----- What becomes of a promise -----

  /** What settles the promise of the request sent under `id` at step `r`, if anything has before step
      `i`: the first of its timer, a message under its id, and the close of any socket. */
  ghost function Verdict(events: seq<Event>, id: string, r: nat, i: nat): seq<Cause>
    requires i <= |events|
    decreases i
  {
    if i <= r + 1 then []
    else if Verdict(events, id, r, i - 1) != [] then Verdict(events, id, r, i - 1)
    else
      match events[i - 1]
      case Timer(j) => if j == id then [TimedOut] else []
      case Receive(Message(j, error, kind, data)) =>
        if j != id then [] else if error != "" then [ServerError(error)] else [Replied(data)]
      case Lost(s) => [Closed(s)]
      case _ => []
  }

  /** One event, as the promise that waits under `id` takes it. */
  lemma PromiseNext(c: Client, e: Event, id: string, p: nat)
    requires Inv(c) && Enabled(c, e) && id in c.pending && c.pending[id] == p && id != ""
    requires e.Request? ==> FormatInt(c.nextId + 1) != id
    ensures p < |c.settled| && p < |Next(c, e).settled| && c.settled[p] == []
    ensures Next(c, e).settled[p] ==
      match e
      case Timer(j) => if j == id then [TimedOut] else []
      case Receive(Message(j, error, kind, data)) =>
        if j != id then [] else if error != "" then [ServerError(error)] else [Replied(data)]
      case Lost(s) => [Closed(s)]
      case _ => []
    ensures Next(c, e).settled[p] == [] ==> id in Next(c, e).pending && Next(c, e).pending[id] == p
  {
    assert Awaited(c.pending, p);
  }

  /** The promise of a request sent on an open socket is settled exactly as the events after it say: by
      the first that concerns it, and by nothing else; until then it waits under its own id. */
  lemma {:induction false} PromiseIsSettled(states: seq<Client>, events: seq<Event>, r: nat, i: nat)
    requires Run(states, events) && r < i < |states| && events[r].Request? && IsOpen(states[r])
    ensures var p, id := |states[r].settled|, FormatInt(|states[r].sent| + 1);
      && p < |states[i].settled| && states[i].settled[p] == Verdict(events, id, r, i)
      && (Verdict(events, id, r, i) == [] ==> id in states[i].pending && states[i].pending[id] == p)
    decreases i
  {
    var p, id := |states[r].settled|, FormatInt(|states[r].sent| + 1);
    if i == r + 1 {
      RequestSends(states, events, r);
    } else {
      var c, e := states[i - 1], events[i - 1];
      PromiseIsSettled(states, events, r, i - 1);
      RunInv(states, events, i - 1);
      FramesNumbered(states, events, i - 1);
      FramesNumbered(states, events, r);
      SentGrows(states, events, r + 1, i - 1);
      RequestSends(states, events, r);
      if c.settled[p] != [] {
        SettledStays(c, e, p);
      } else {
        if e.Request? && FormatInt(c.nextId + 1) == id {
          FormatIntInjective(c.nextId + 1, |states[r].sent| + 1);
        }
        PromiseNext(c, e, id, p);
      }
    }
  }

  lemma {:induction false} SentGrows(states: seq<Client>, events: seq<Event>, i: nat, j: nat)
    requires Run(states, events) && i <= j < |states|
    ensures |states[i].sent| <= |states[j].sent|
    decreases j - i
  {
    if i == j {
    } else {
      SentGrows(states, events, i, j - 1);
    }
  }
}
