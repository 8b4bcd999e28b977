/**
 The asynchronous log writer of logger/logger.go as interleaved steps of any number of callers of
 log, Flush and Close, and the one worker.

 Callers of log and Flush hold the read lock from their closed-check to the end of their send;
 Close takes the write lock to mark the writer closed and close the channel; the worker drains
 the bounded channel until it is closed and empty.
*/
module Logger {
  import opened Common

  type Tid = nat

  /**
   A queued line, or the in-band marker of one Flush call. A marker carries, for the proof only,
   how many lines had been accepted when it was sent.
  */
  datatype Item = Line(data: nat) | Marker(chan: nat, accepted: nat)

  /** Where a caller stands. */
  datatype Pc =
    | Idle
    | LogLocked(line: nat)      // log: read lock held, before the closed-check
    | LogSending(line: nat)     // log: read lock held, found open
    | LogUnlocking              // log: read lock held, line sent or dropped
    | FlushLocked               // Flush: read lock held, before the closed-check
    | FlushSending(chan: nat)   // Flush: read lock held, found open
    | FlushSent(marker: Item)   // Flush: read lock held, marker sent
    | FlushWaiting(marker: Item) // Flush: no lock, waiting for its marker
    | FlushSkipping             // Flush: read lock held, found closed
    | CloseLocked               // Close: write lock held, before the closed-check
    | CloseMarked               // Close: write lock held, channel closed by this call
    | CloseWaiting              // Close: no lock, waiting for the worker
    | CloseSkipping             // Close: write lock held, found closed already

  predicate Reads(pc: Pc) {
    pc.LogLocked? || pc.LogSending? || pc.LogUnlocking? || pc.FlushLocked? || pc.FlushSending? || pc.FlushSent? || pc.FlushSkipping?
  }

  predicate Writes(pc: Pc) {
    pc.CloseLocked? || pc.CloseMarked? || pc.CloseSkipping?
  }

  datatype State = State(
    cap: nat,
    threads: map<Tid, Pc>,
    queue: seq<Item>,
    closed: bool,
    hand: Option<Item>,    // taken by the worker, not yet handled
    workerDone: bool,
    chans: nat,            // channels made so far
    accepted: seq<nat>,    // every line sent, in order
    written: seq<nat>,     // every line handed to the output, in order
    flushed: set<Item>)    // markers whose channel the worker closed

  function Start(cap: nat): State {
    State(cap, map[], [], false, None, false, 0, [], [], {})
  }

  function At(s: State, t: Tid): Pc {
    if t in s.threads then s.threads[t] else Idle
  }

  function Move(s: State, t: Tid, pc: Pc): State {
    s.(threads := s.threads[t := pc])
  }

  datatype Step =
    | LogBegin(t: Tid, line: nat) | LogCheck(t: Tid) | LogSend(t: Tid) | LogEnd(t: Tid)
    | FlushBegin(t: Tid) | FlushCheck(t: Tid) | FlushSend(t: Tid) | FlushUnlock(t: Tid) | FlushReturn(t: Tid)
    | CloseBegin(t: Tid) | CloseCheck(t: Tid) | CloseUnlock(t: Tid) | CloseReturn(t: Tid)
    | WorkerTake | WorkerHandle | WorkerExit

  ghost predicate NoWriter(s: State) {
    forall t :: t in s.threads ==> !Writes(s.threads[t])
  }

  ghost predicate NoReader(s: State) {
    forall t :: t in s.threads ==> !Reads(s.threads[t])
  }

  ghost predicate Enabled(s: State, e: Step) {
    match e
    case LogBegin(t, _) => At(s, t).Idle? && NoWriter(s)
    case LogCheck(t) => At(s, t).LogLocked?
    case LogSend(t) => At(s, t).LogSending? && |s.queue| < s.cap
    case LogEnd(t) => At(s, t).LogUnlocking?
    case FlushBegin(t) => At(s, t).Idle? && NoWriter(s)
    case FlushCheck(t) => At(s, t).FlushLocked?
    case FlushSend(t) => At(s, t).FlushSending? && |s.queue| < s.cap
    case FlushUnlock(t) => At(s, t).FlushSent? || At(s, t).FlushSkipping?
    case FlushReturn(t) => At(s, t).FlushWaiting? && At(s, t).marker in s.flushed
    case CloseBegin(t) => At(s, t).Idle? && NoWriter(s) && NoReader(s)
    case CloseCheck(t) => At(s, t).CloseLocked?
    case CloseUnlock(t) => At(s, t).CloseMarked? || At(s, t).CloseSkipping?
    case CloseReturn(t) => At(s, t).CloseWaiting? && s.workerDone
    case WorkerTake => !s.workerDone && s.hand.None? && |s.queue| > 0
    case WorkerHandle => s.hand.Some?
    case WorkerExit => !s.workerDone && s.hand.None? && s.queue == [] && s.closed
  }

  function Next(s: State, e: Step): State {
    match e
    case LogBegin(t, line) => Move(s, t, LogLocked(line))
    case LogCheck(t) =>
      var pc := At(s, t);
      if pc.LogLocked? then Move(s, t, if s.closed then LogUnlocking else LogSending(pc.line)) else s
    case LogSend(t) =>
      var pc := At(s, t);
      if pc.LogSending? then
        Move(s, t, LogUnlocking).(queue := s.queue + [Line(pc.line)], accepted := s.accepted + [pc.line])
      else s
    case LogEnd(t) => Move(s, t, Idle)
    case FlushBegin(t) => Move(s, t, FlushLocked)
    case FlushCheck(t) =>
      if s.closed then Move(s, t, FlushSkipping) else Move(s, t, FlushSending(s.chans)).(chans := s.chans + 1)
    case FlushSend(t) =>
      var pc := At(s, t);
      if pc.FlushSending? then
        var m := Marker(pc.chan, |s.accepted|);
        Move(s, t, FlushSent(m)).(queue := s.queue + [m])
      else s
    case FlushUnlock(t) =>
      var pc := At(s, t);
      Move(s, t, if pc.FlushSent? then FlushWaiting(pc.marker) else Idle)
    case FlushReturn(t) => Move(s, t, Idle)
    case CloseBegin(t) => Move(s, t, CloseLocked)
    case CloseCheck(t) =>
      if s.closed then Move(s, t, CloseSkipping) else Move(s, t, CloseMarked).(closed := true)
    case CloseUnlock(t) => Move(s, t, if At(s, t).CloseMarked? then CloseWaiting else Idle)
    case CloseReturn(t) => Move(s, t, Idle)
    case WorkerTake =>
      if |s.queue| > 0 then s.(queue := s.queue[1..], hand := Some(s.queue[0])) else s
    case WorkerHandle =>
      (match s.hand
       case None => s
       case Some(Line(data)) => s.(hand := None, written := s.written + [data])
       case Some(m) => s.(hand := None, flushed := s.flushed + {m}))
    case WorkerExit => s.(workerDone := true)
  }

  function Run(cap: nat, es: seq<Step>): State {
    if |es| == 0 then Start(cap) else Next(Run(cap, es[..|es| - 1]), es[|es| - 1])
  }

  ghost predicate Legal(cap: nat, es: seq<Step>) {
    |es| > 0 ==> Legal(cap, es[..|es| - 1]) && Enabled(Run(cap, es[..|es| - 1]), es[|es| - 1])
  }

  lemma Extend(cap: nat, es: seq<Step>, e: Step)
    requires Legal(cap, es) && Enabled(Run(cap, es), e)
    ensures Legal(cap, es + [e]) && Run(cap, es + [e]) == Next(Run(cap, es), e)
  {
    assert (es + [e])[..|es|] == es;
  }

  // ---------------------------------------------------------------- conservation of lines

  function Lines(q: seq<Item>): seq<nat> {
    if |q| == 0 then []
    else Lines(q[..|q| - 1]) + (if q[|q| - 1].Line? then [q[|q| - 1].data] else [])
  }

  function InHand(s: State): seq<nat> {
    if s.hand.Some? && s.hand.value.Line? then [s.hand.value.data] else []
  }

  lemma {:induction false} LinesFront(x: Item, q: seq<Item>)
    ensures Lines([x] + q) == (if x.Line? then [x.data] else []) + Lines(q)
  {
    var all := [x] + q;
    if |q| == 0 {
      assert all[..0] == [];
      assert all == [x];
    } else {
      assert all[..|all| - 1] == [x] + q[..|q| - 1];
      LinesFront(x, q[..|q| - 1]);
    }
  }

  lemma LinesBack(q: seq<Item>, x: Item)
    ensures Lines(q + [x]) == Lines(q) + (if x.Line? then [x.data] else [])
  {
    assert (q + [x])[..|q|] == q;
  }

  /** Nothing is lost, duplicated or reordered between acceptance and output. */
  ghost predicate Conserved(s: State) {
    s.accepted == s.written + InHand(s) + Lines(s.queue)
  }

  /** Every marker sits behind exactly the lines accepted before it. */
  ghost predicate MarkersPlaced(s: State) {
    && (forall i | 0 <= i < |s.queue| :: s.queue[i].Marker? ==>
          s.queue[i].accepted == |s.written| + |InHand(s)| + |Lines(s.queue[..i])|)
    && (s.hand.Some? && s.hand.value.Marker? ==> s.hand.value.accepted == |s.written|)
    && (forall m | m in s.flushed :: m.Marker? && m.accepted <= |s.written|)
  }

  /** Lock discipline, and what each caller may rely on at its place. */
  ghost predicate PlaceInv(s: State, pc: Pc) {
    && (pc.LogSending? || pc.FlushSending? ==> !s.closed)
    && (pc.FlushSent? || pc.FlushWaiting? ==>
          pc.marker.Marker? && (pc.marker in s.queue || s.hand == Some(pc.marker) || pc.marker in s.flushed))
    && (pc.CloseMarked? || pc.CloseWaiting? ==> s.closed)
  }

  ghost predicate Exclusive(s: State) {
    forall t, u | t in s.threads && u in s.threads && Writes(s.threads[t]) && u != t ::
      !Reads(s.threads[u]) && !Writes(s.threads[u])
  }

  ghost predicate Inv(s: State) {
    && Conserved(s)
    && MarkersPlaced(s)
    && Exclusive(s)
    && (forall t | t in s.threads :: PlaceInv(s, s.threads[t]))
    && |s.queue| <= s.cap
    && (s.workerDone ==> s.closed && s.queue == [] && s.hand.None?)
  }

  ghost predicate ByWorker(e: Step) {
    e.WorkerTake? || e.WorkerHandle? || e.WorkerExit?
  }

  lemma TakeConserves(s: State)
    requires Conserved(s) && Enabled(s, WorkerTake)
    ensures Conserved(Next(s, WorkerTake))
  {
    hide Lines;
    var x, rest := s.queue[0], s.queue[1..];
    assert s.queue == [x] + rest;
    LinesFront(x, rest);
    Regroup(s.written, if x.Line? then [x.data] else [], Lines(rest));
  }

  lemma Regroup(a: seq<nat>, b: seq<nat>, c: seq<nat>)
    ensures a + [] + (b + c) == a + b + c
  {
  }

  lemma TakeShiftsMarker(s: State, i: nat)
    requires MarkersPlaced(s) && Enabled(s, WorkerTake) && i + 1 < |s.queue| && s.queue[i + 1].Marker?
    ensures var s' := Next(s, WorkerTake);
      s'.queue[i].accepted == |s'.written| + |InHand(s')| + |Lines(s'.queue[..i])|
  {
    hide Lines;
    var x, rest := s.queue[0], s.queue[1..];
    LinesFront(x, rest[..i]);
    assert s.queue[..i + 1] == [x] + rest[..i];
  }

  lemma TakeKeepsMarkers(s: State)
    requires Inv(s) && Enabled(s, WorkerTake)
    ensures MarkersPlaced(Next(s, WorkerTake))
  {
    hide Lines;
    var s' := Next(s, WorkerTake);
    forall i | 0 <= i < |s'.queue| && s'.queue[i].Marker?
      ensures s'.queue[i].accepted == |s'.written| + |InHand(s')| + |Lines(s'.queue[..i])|
    {
      TakeShiftsMarker(s, i);
    }
    NothingBefore(s);
  }

  lemma NothingBefore(s: State)
    requires |s.queue| > 0
    ensures |Lines(s.queue[..0])| == 0
  {
  }

  lemma WorkerKeepsLines(s: State, e: Step)
    requires Inv(s) && Enabled(s, e) && ByWorker(e)
    ensures Conserved(Next(s, e)) && MarkersPlaced(Next(s, e))
  {
    if e.WorkerTake? { TakeConserves(s); TakeKeepsMarkers(s); }
  }

  lemma WorkerKeepsPlaces(s: State, e: Step, t: Tid)
    requires Inv(s) && Enabled(s, e) && ByWorker(e) && t in s.threads
    ensures PlaceInv(Next(s, e), s.threads[t])
  {
    assert PlaceInv(s, s.threads[t]);
    if e.WorkerTake? { assert s.queue == [s.queue[0]] + s.queue[1..]; }
  }

  lemma WorkerKeepsInv(s: State, e: Step)
    requires Inv(s) && Enabled(s, e) && ByWorker(e)
    ensures Inv(Next(s, e))
  {
    WorkerKeepsLines(s, e);
    forall t | t in s.threads ensures PlaceInv(Next(s, e), s.threads[t]) { WorkerKeepsPlaces(s, e, t); }
  }

  lemma CallerKeepsLines(s: State, e: Step)
    requires Inv(s) && Enabled(s, e) && !ByWorker(e)
    ensures Conserved(Next(s, e)) && MarkersPlaced(Next(s, e))
  {
    hide Lines;
    var s' := Next(s, e);
    if s'.queue != s.queue {
      LinesBack(s.queue, s'.queue[|s.queue|]);
      assert s'.queue[..|s.queue|] == s.queue;
      forall i | 0 <= i < |s.queue| ensures s'.queue[..i] == s.queue[..i] && s'.queue[i] == s.queue[i] {}
    }
  }

  lemma CallerKeepsPlaces(s: State, e: Step, u: Tid)
    requires Inv(s) && Enabled(s, e) && !ByWorker(e) && u in Next(s, e).threads
    ensures PlaceInv(Next(s, e), Next(s, e).threads[u])
  {
    if u in s.threads { assert PlaceInv(s, s.threads[u]); }
    if e.t in s.threads { assert PlaceInv(s, s.threads[e.t]); }
  }

  lemma CallerKeepsLocks(s: State, e: Step)
    requires Inv(s) && Enabled(s, e) && !ByWorker(e)
    ensures Exclusive(Next(s, e))
  {
  }

  lemma CallerKeepsInv(s: State, e: Step)
    requires Inv(s) && Enabled(s, e) && !ByWorker(e)
    ensures Inv(Next(s, e))
  {
    CallerKeepsLines(s, e);
    CallerKeepsLocks(s, e);
    forall u | u in Next(s, e).threads ensures PlaceInv(Next(s, e), Next(s, e).threads[u]) { CallerKeepsPlaces(s, e, u); }
    if e.t in s.threads { assert PlaceInv(s, s.threads[e.t]); }
  }

  lemma {:induction false} InvAlways(cap: nat, es: seq<Step>)
    requires Legal(cap, es)
    ensures Inv(Run(cap, es))
  {
    if |es| > 0 {
      var s, e := Run(cap, es[..|es| - 1]), es[|es| - 1];
      InvAlways(cap, es[..|es| - 1]);
      if ByWorker(e) { WorkerKeepsInv(s, e); } else { CallerKeepsInv(s, e); }
    }
  }

  // ---------------------------------------------------------------- main theorems

  /** Output, worker and channel together always hold the accepted lines, in order. */
  lemma {:induction false} NothingLost(cap: nat, es: seq<Step>)
    requires Legal(cap, es)
    ensures var s := Run(cap, es);
      && s.accepted == s.written + InHand(s) + Lines(s.queue)
      && s.written <= s.accepted
      && |s.queue| <= cap
  {
    InvAlways(cap, es);
    CapIsConstant(cap, es);
  }

  lemma {:induction false} CapIsConstant(cap: nat, es: seq<Step>)
    ensures Run(cap, es).cap == cap
  {
    if |es| > 0 { CapIsConstant(cap, es[..|es| - 1]); }
  }

  /** No caller is ever about to send on a closed channel. */
  lemma {:induction false} NoSendOnClosed(cap: nat, es: seq<Step>, t: Tid)
    requires Legal(cap, es) && (At(Run(cap, es), t).LogSending? || At(Run(cap, es), t).FlushSending?)
    ensures !Run(cap, es).closed
  {
    InvAlways(cap, es);
    assert PlaceInv(Run(cap, es), Run(cap, es).threads[t]);
  }

  /** A Flush that waited returns only when everything accepted before its marker is written. */
  lemma {:induction false} FlushMeansWritten(cap: nat, es: seq<Step>, t: Tid)
    requires Legal(cap, es) && Enabled(Run(cap, es), FlushReturn(t))
    ensures var s, m := Run(cap, es), At(Run(cap, es), t).marker;
      && m.Marker?
      && m.accepted <= |s.written| <= |s.accepted|
      && s.written[..m.accepted] == s.accepted[..m.accepted]
  {
    InvAlways(cap, es);
  }

  /** A Close that waited returns only when everything ever accepted is written. */
  lemma {:induction false} CloseMeansWritten(cap: nat, es: seq<Step>, t: Tid)
    requires Legal(cap, es) && Enabled(Run(cap, es), CloseReturn(t))
    ensures Run(cap, es).written == Run(cap, es).accepted
    ensures Run(cap, es).closed
  {
    InvAlways(cap, es);
  }

  /** ... and nothing is accepted or written afterwards. */
  lemma {:induction false} NothingAfterTheWorker(cap: nat, es: seq<Step>, e: Step)
    requires Legal(cap, es) && Enabled(Run(cap, es), e) && Run(cap, es).workerDone
    ensures Next(Run(cap, es), e).accepted == Run(cap, es).accepted == Run(cap, es).written == Next(Run(cap, es), e).written
    ensures Next(Run(cap, es), e).workerDone
  {
    InvAlways(cap, es);
    var s := Run(cap, es);
    if !ByWorker(e) && e.t in s.threads { assert PlaceInv(s, s.threads[e.t]); }
  }

  // ---------------------------------------------------------------- what the calls alone guarantee

  /** The steps of the callers; when the worker runs in between is not theirs to see. */
  ghost function Callers(es: seq<Step>): seq<Step> {
    if |es| == 0 then []
    else Callers(es[..|es| - 1]) + (if ByWorker(es[|es| - 1]) then [] else [es[|es| - 1]])
  }

  /**
   What the calls made and returned so far tell: whether a line was accepted, whether a Close has
   returned after waiting, and, since the last line, how many flush markers were sent, by whom, and
   whether one of those Flush calls has returned.
  */
  datatype Seen = Seen(lines: bool, closeReturned: bool, flushed: bool, markers: nat, senders: set<Tid>)

  function See(s: Seen, e: Step): Seen {
    match e
    case LogSend(_) => Seen(true, s.closeReturned, false, 0, {})
    case FlushSend(t) => s.(markers := s.markers + 1, senders := s.senders + {t})
    case FlushReturn(t) => if t in s.senders then s.(flushed := true) else s
    case CloseReturn(_) => s.(closeReturned := true)
    case _ => s
  }

  function Told(es: seq<Step>): Seen {
    if |es| == 0 then Seen(false, false, false, 0, {}) else See(Told(es[..|es| - 1]), es[|es| - 1])
  }

  /** Nothing to write, a Close or a later Flush has returned, or the markers since have filled the channel. */
  predicate Settles(cap: nat, s: Seen) {
    !s.lines || s.closeReturned || s.flushed || s.markers > cap
  }

  lemma {:induction false} ToldByCallers(es: seq<Step>)
    ensures Told(Callers(es)) == Told(es)
  {
    if |es| > 0 {
      var init, e := es[..|es| - 1], es[|es| - 1];
      ToldByCallers(init);
      if ByWorker(e) {
        assert Callers(es) == Callers(init);
      } else {
        assert (Callers(init) + [e])[..|Callers(init)|] == Callers(init);
      }
    }
  }

  lemma CallersExtend(es: seq<Step>, e: Step)
    ensures Callers(es + [e]) == Callers(es) + (if ByWorker(e) then [] else [e])
    ensures Told(es + [e]) == See(Told(es), e)
  {
    assert (es + [e])[..|es|] == es;
  }

  /** The markers at the back of the queue. */
  function Tail(q: seq<Item>): nat {
    if |q| == 0 || q[|q| - 1].Line? then 0 else Tail(q[..|q| - 1]) + 1
  }

  lemma {:induction false} TailWithin(q: seq<Item>)
    ensures Tail(q) <= |q| && (Lines(q) == [] ==> Tail(q) == |q|)
  {
    if |q| > 0 { TailWithin(q[..|q| - 1]); }
  }

  lemma {:induction false} TailFront(x: Item, q: seq<Item>)
    requires x.Line? || Lines(q) != []
    ensures Tail([x] + q) == Tail(q)
  {
    var all := [x] + q;
    if |q| > 0 {
      assert all[..|all| - 1] == [x] + q[..|q| - 1];
      if q[|q| - 1].Marker? { TailFront(x, q[..|q| - 1]); }
    } else {
      assert all == [x];
    }
  }

  lemma TailBack(q: seq<Item>, x: Item)
    ensures Tail(q + [x]) == if x.Line? then 0 else Tail(q) + 1
  {
    assert (q + [x])[..|q|] == q;
  }

  ghost predicate Unwritten(s: State) {
    s.written != s.accepted
  }

  lemma UnwrittenIff(s: State)
    requires Conserved(s)
    ensures Unwritten(s) <==> InHand(s) != [] || Lines(s.queue) != []
  {
    assert |s.accepted| == |s.written| + |InHand(s)| + |Lines(s.queue)|;
  }

  /** What a summary of the calls says about the state, whatever the worker has done. */
  ghost predicate Telling(s: State, told: Seen) {
    && (!told.lines ==> s.accepted == [])
    && (told.closeReturned ==> s.workerDone)
    && (told.flushed ==> !Unwritten(s))
    && (Unwritten(s) ==> Tail(s.queue) == told.markers)
    && (!told.flushed ==> forall t | t in told.senders ::
          t in s.threads && (s.threads[t].FlushSent? || s.threads[t].FlushWaiting?) && s.threads[t].marker.Marker?
          && s.threads[t].marker.accepted == |s.accepted|)
  }

  lemma WorkerKeepsTelling(s: State, e: Step, told: Seen)
    requires Inv(s) && Enabled(s, e) && ByWorker(e) && Telling(s, told)
    ensures Telling(Next(s, e), told)
  {
    hide Lines, Tail;
    var s' := Next(s, e);
    WorkerKeepsLines(s, e);
    UnwrittenIff(s);
    UnwrittenIff(s');
    if e.WorkerTake? {
      assert s.queue == [s.queue[0]] + s.queue[1..];
      LinesFront(s.queue[0], s.queue[1..]);
      if s.queue[0].Line? || Lines(s.queue[1..]) != [] { TailFront(s.queue[0], s.queue[1..]); }
    }
  }

  lemma CallerKeepsTelling(s: State, e: Step, told: Seen)
    requires Inv(s) && Enabled(s, e) && !ByWorker(e) && Telling(s, told)
    ensures Telling(Next(s, e), See(told, e))
  {
    hide Lines, Tail;
    var s' := Next(s, e);
    if e.FlushReturn? && e.t in told.senders && !told.flushed {
      assert s.threads[e.t].marker in s.flushed;
      assert s.written == s.accepted[..|s.written|];
    }
    if s'.queue != s.queue { TailBack(s.queue, s'.queue[|s.queue|]); }
  }

  lemma {:induction false} TellingAlways(cap: nat, es: seq<Step>)
    requires Legal(cap, es)
    ensures Telling(Run(cap, es), Told(es))
  {
    if |es| > 0 {
      hide Next, Enabled, Inv, Telling;
      var s, e := Run(cap, es[..|es| - 1]), es[|es| - 1];
      InvAlways(cap, es[..|es| - 1]);
      TellingAlways(cap, es[..|es| - 1]);
      if ByWorker(e) { WorkerKeepsTelling(s, e, Told(es[..|es| - 1])); } else { CallerKeepsTelling(s, e, Told(es[..|es| - 1])); }
    } else {
      assert Telling(Start(cap), Told(es));
    }
  }

  lemma {:induction false} SettledIsWritten(cap: nat, es: seq<Step>)
    requires Legal(cap, es) && Settles(cap, Told(es))
    ensures Run(cap, es).written == Run(cap, es).accepted
  {
    InvAlways(cap, es);
    CapIsConstant(cap, es);
    TellingAlways(cap, es);
    TailWithin(Run(cap, es).queue);
  }

  // ---------------------------------------------------------------- the schedule that writes least

  /** The same to every caller. */
  ghost predicate Alike(s: State, u: State) {
    s.threads == u.threads && s.closed == u.closed && s.accepted == u.accepted && s.chans == u.chans && s.cap == u.cap
  }

  /** The last line is in the worker's hand, all before it is done, and only the markers since are queued. */
  ghost predicate Lazy(u: State, told: Seen) {
    && u.hand.Some? && u.hand.value.Line? && |u.queue| == told.markers && !u.workerDone
    && (forall t | t in u.threads && t !in told.senders && (u.threads[t].FlushSent? || u.threads[t].FlushWaiting?) ::
          u.threads[t].marker in u.flushed)
  }

  /** Markers not lost on the way from s to u: queued, in hand or released before, they are released or still on their way. */
  ghost predicate Known(s: State, m: Item) {
    m.Marker? && (m in s.queue || s.hand == Some(m) || m in s.flushed)
  }

  ghost predicate EndsWithLine(s: State) {
    |s.queue| > 0 && s.queue[|s.queue| - 1].Line?
  }

  ghost predicate CaughtUp(s: State, u: State) {
    && Alike(s, u) && u.queue == [] && !u.workerDone
    && EndsWithLine(s) && u.hand == Some(s.queue[|s.queue| - 1])
    && (forall m | Known(s, m) :: m in u.flushed)
  }

  lemma HandleOnTheWay(s: State)
    requires Inv(s) && EndsWithLine(s) && s.hand.Some?
    ensures Enabled(s, WorkerHandle)
    ensures var v := Next(s, WorkerHandle);
      Alike(s, v) && v.queue == s.queue && v.hand.None? && forall m | Known(s, m) :: Known(v, m)
  {
  }

  lemma TakeOnTheWay(s: State)
    requires Inv(s) && EndsWithLine(s) && s.hand.None?
    ensures Enabled(s, WorkerTake)
    ensures var v := Next(s, WorkerTake);
      && Alike(s, v) && v.queue == s.queue[1..] && v.hand == Some(s.queue[0]) && !v.workerDone
      && (forall m | Known(s, m) :: Known(v, m))
      && (|s.queue| > 1 ==> EndsWithLine(v) && v.queue[|v.queue| - 1] == s.queue[|s.queue| - 1])
  {
    assert s.queue == [s.queue[0]] + s.queue[1..];
  }

  /** The worker catches up until the line just accepted is in its hand. */
  lemma {:induction false} CatchUp(cap: nat, es: seq<Step>) returns (fs: seq<Step>)
    requires Legal(cap, es) && EndsWithLine(Run(cap, es))
    ensures Legal(cap, fs) && Callers(fs) == Callers(es) && CaughtUp(Run(cap, es), Run(cap, fs))
    decreases |Run(cap, es).queue|, if Run(cap, es).hand.Some? then 1 else 0
  {
    hide Legal, Next, Enabled, Inv, Run, Callers;
    InvAlways(cap, es);
    var s := Run(cap, es);
    if s.hand.Some? {
      HandleOnTheWay(s);
      Extend(cap, es, WorkerHandle);
      CallersExtend(es, WorkerHandle);
      fs := CatchUp(cap, es + [WorkerHandle]);
    } else {
      TakeOnTheWay(s);
      Extend(cap, es, WorkerTake);
      CallersExtend(es, WorkerTake);
      if |s.queue| == 1 {
        fs := es + [WorkerTake];
      } else {
        fs := CatchUp(cap, es + [WorkerTake]);
      }
    }
  }

  lemma LazyStep(s: State, u: State, told: Seen, e: Step)
    requires Alike(s, u) && Lazy(u, told) && Enabled(s, e) && !ByWorker(e) && !e.LogSend? && !e.CloseReturn?
    requires !See(told, e).flushed && See(told, e).markers <= s.cap
    ensures Enabled(u, e) && Alike(Next(s, e), Next(u, e)) && Lazy(Next(u, e), See(told, e))
  {
  }

  lemma CaughtUpIsLazy(s: State, u: State, e: Step)
    requires Inv(s) && e.LogSend? && Enabled(s, e) && CaughtUp(Next(s, e), u)
    ensures Lazy(u, Seen(true, false, false, 0, {}))
  {
    forall t | t in u.threads && (u.threads[t].FlushSent? || u.threads[t].FlushWaiting?) ensures u.threads[t].marker in u.flushed {
      assert PlaceInv(s, s.threads[t]);
      assert Known(Next(s, e), u.threads[t].marker);
    }
  }

  /** Unless the calls settle it, the same calls can run with the last line still unwritten. */
  lemma {:induction false} LazySchedule(cap: nat, es: seq<Step>) returns (fs: seq<Step>)
    requires Legal(cap, es) && !Settles(cap, Told(es))
    ensures Legal(cap, fs) && Callers(fs) == Callers(es)
    ensures Alike(Run(cap, es), Run(cap, fs)) && Lazy(Run(cap, fs), Told(es))
  {
    hide Next, Enabled, Inv, Lazy;
    var init, e := es[..|es| - 1], es[|es| - 1];
    var s := Run(cap, init);
    InvAlways(cap, init);
    CapIsConstant(cap, init);
    if ByWorker(e) {
      fs := LazySchedule(cap, init);
      WorkerIsInvisible(s, e);
    } else if e.LogSend? {
      SendAddsLine(s, e);
      fs := CatchUp(cap, es);
      CaughtUpIsLazy(s, Run(cap, fs), e);
    } else {
      var gs := LazySchedule(cap, init);
      LazyStep(s, Run(cap, gs), Told(init), e);
      Extend(cap, gs, e);
      CallersExtend(gs, e);
      fs := gs + [e];
    }
  }

  lemma WorkerIsInvisible(s: State, e: Step)
    requires ByWorker(e)
    ensures Alike(s, Next(s, e))
  {
  }

  lemma SendAddsLine(s: State, e: Step)
    requires e.LogSend? && Enabled(s, e)
    ensures EndsWithLine(Next(s, e))
  {
  }

  /**
   The exact guarantee of the calls: every accepted line is written, however the worker is scheduled,
   if and only if no line was accepted, or a Close has returned after waiting, or a Flush sent since
   the last line has returned, or more markers were sent since than the channel holds.
  */
  lemma {:induction false} CallsGuaranteeWrittenIff(cap: nat, es: seq<Step>)
    requires Legal(cap, es)
    ensures (forall fs | Legal(cap, fs) && Callers(fs) == Callers(es) :: Run(cap, fs).written == Run(cap, fs).accepted)
       <==> Settles(cap, Told(es))
  {
    if Settles(cap, Told(es)) {
      forall fs | Legal(cap, fs) && Callers(fs) == Callers(es) ensures Run(cap, fs).written == Run(cap, fs).accepted {
        ToldByCallers(fs);
        ToldByCallers(es);
        SettledIsWritten(cap, fs);
      }
    } else {
      var fs := LazySchedule(cap, es);
      InvAlways(cap, fs);
      UnwrittenIff(Run(cap, fs));
    }
  }

  /**
   A Close or Flush that finds the writer closed returns at once and waits for nothing. So what its
   return guarantees is what the other calls guarantee: the lines are written, in every schedule, if
   some Close had already returned, and otherwise only by a Flush after the last line.
  */
  lemma {:induction false} EarlyReturnGuaranteesIff(cap: nat, es: seq<Step>, t: Tid)
    requires Legal(cap, es) && (At(Run(cap, es), t).CloseSkipping? || At(Run(cap, es), t).FlushSkipping?)
    ensures var e := if At(Run(cap, es), t).CloseSkipping? then CloseUnlock(t) else FlushUnlock(t);
      && Legal(cap, es + [e])
      && ((forall fs | Legal(cap, fs) && Callers(fs) == Callers(es + [e]) :: Run(cap, fs).written == Run(cap, fs).accepted)
            <==> Settles(cap, Told(es)))
  {
    var e := if At(Run(cap, es), t).CloseSkipping? then CloseUnlock(t) else FlushUnlock(t);
    Extend(cap, es, e);
    CallersExtend(es, e);
    CallsGuaranteeWrittenIff(cap, es + [e]);
  }

  // ---------------------------------------------------------------- what a call may rely on when it returns

  ghost predicate Began(es: seq<Step>, i: nat, t: Tid) {
    i < |es| && Begins(es[i]) && es[i].t == t && forall j | i < j < |es| :: !(Begins(es[j]) && es[j].t == t)
  }

  /** The line is among those accepted since. */
  ghost predicate AcceptedSince(accepted: seq<nat>, from: nat, line: nat) {
    exists p :: from <= p < |accepted| && accepted[p] == line
  }

  /** How far a call that began when `from` lines had been accepted has come, unless the writer is closed by now. */
  ghost predicate OnItsWay(s: State, begin: Step, t: Tid, from: nat) {
    var pc := At(s, t);
    && from <= |s.accepted|
    && (s.closed || match begin
      case LogBegin(_, line) =>
        pc == LogLocked(line) || pc == LogSending(line) || ((pc.LogUnlocking? || pc.Idle?) && AcceptedSince(s.accepted, from, line))
      case FlushBegin(_) =>
        || pc.FlushLocked? || pc.FlushSending?
        || ((pc.FlushSent? || pc.FlushWaiting?) && pc.marker.Marker? && pc.marker.accepted >= from)
        || (pc.Idle? && |s.written| >= from)
      case _ => pc.CloseLocked?)
  }

  lemma CallBegins(s: State, e: Step)
    requires Enabled(s, e) && Begins(e)
    ensures OnItsWay(Next(s, e), e, e.t, |s.accepted|)
  {
  }

  lemma AcceptedGrows(s: State, e: Step)
    requires Enabled(s, e)
    ensures s.accepted <= Next(s, e).accepted && |s.written| <= |Next(s, e).written| && (s.closed ==> Next(s, e).closed)
    ensures e.LogSend? ==> Next(s, e).accepted == s.accepted + [At(s, e.t).line]
  {
  }

  lemma SinceGrows(a: seq<nat>, b: seq<nat>, from: nat, line: nat)
    requires a <= b
    ensures AcceptedSince(a, from, line) ==> AcceptedSince(b, from, line)
    ensures from <= |a| && b == a + [line] ==> AcceptedSince(b, from, line)
  {
    if from <= |a| && b == a + [line] { assert b[|a|] == line; }
    if AcceptedSince(a, from, line) {
      var p :| from <= p < |a| && a[p] == line;
      assert b[p] == line;
    }
  }

  lemma OthersLeavePlace(s: State, e: Step, t: Tid)
    requires Enabled(s, e) && (ByWorker(e) || e.t != t)
    ensures At(Next(s, e), t) == At(s, t)
  {
  }

  lemma OnItsWayStep(s: State, e: Step, begin: Step, t: Tid, from: nat)
    requires Inv(s) && Enabled(s, e) && Begins(begin) && OnItsWay(s, begin, t, from) && !(Begins(e) && e.t == t)
    ensures OnItsWay(Next(s, e), begin, t, from)
  {
    AcceptedGrows(s, e);
    if begin.LogBegin? { SinceGrows(s.accepted, Next(s, e).accepted, from, begin.line); }
    hide AcceptedSince;
    if ByWorker(e) || e.t != t {
      OthersLeavePlace(s, e, t);
      hide Next, Enabled, Inv;
    } else {
      hide Inv;
      FlushedIsWritten(s);
    }
  }

  lemma FlushedIsWritten(s: State)
    requires Inv(s)
    ensures forall m | m in s.flushed :: m.Marker? && m.accepted <= |s.written|
  {
  }

  lemma {:induction false} OnItsWayAlways(cap: nat, es: seq<Step>, i: nat, t: Tid)
    requires Legal(cap, es) && Began(es, i, t)
    ensures OnItsWay(Run(cap, es), es[i], t, |Run(cap, es[..i]).accepted|)
  {
    hide Next, Enabled, Inv, OnItsWay;
    var n := |es| - 1;
    InvAlways(cap, es[..n]);
    if i == n {
      CallBegins(Run(cap, es[..n]), es[n]);
    } else {
      OnItsWayAlways(cap, es[..n], i, t);
      assert es[..n][..i] == es[..i];
      OnItsWayStep(Run(cap, es[..n]), es[n], es[i], t, |Run(cap, es[..i]).accepted|);
    }
  }

  /**
   Over every run, for a call that has returned while the writer is still open: a log call has had its
   line accepted, a Flush has everything written that was accepted before it began, and no Close
   returns like that at all.
  */
  lemma {:induction false} ReturnedWhileOpen(cap: nat, es: seq<Step>, i: nat, t: Tid)
    requires Legal(cap, es) && Began(es, i, t) && At(Run(cap, es), t).Idle? && !Run(cap, es).closed
    ensures var s, before := Run(cap, es), Run(cap, es[..i]);
      match es[i]
      case LogBegin(_, line) => exists p :: |before.accepted| <= p < |s.accepted| && s.accepted[p] == line
      case FlushBegin(_) => |before.accepted| <= |s.written| && s.written[..|before.accepted|] == before.accepted
      case _ => false
  {
    OnItsWayAlways(cap, es, i, t);
    InvAlways(cap, es);
    if es[i].FlushBegin? { AcceptedGrowsSince(cap, es, i); }
  }

  lemma {:induction false} AcceptedGrowsSince(cap: nat, es: seq<Step>, i: nat)
    requires Legal(cap, es) && i <= |es|
    ensures Run(cap, es[..i]).accepted <= Run(cap, es).accepted
  {
    if i < |es| {
      var n := |es| - 1;
      AcceptedGrowsSince(cap, es[..n], i);
      assert es[..n][..i] == es[..i];
      AcceptedGrows(Run(cap, es[..n]), es[n]);
    } else {
      assert es[..i] == es;
    }
  }

  /** A Close that closes: it holds the lock, has closed the channel, waits, or has seen the worker leave. */
  ghost predicate Closing(s: State, t: Tid) {
    var pc := At(s, t);
    if pc.Idle? then s.workerDone && s.written == s.accepted
    else if s.closed then pc.CloseMarked? || pc.CloseWaiting?
    else pc.CloseLocked?
  }

  lemma ClosingStep(s: State, e: Step, t: Tid)
    requires Inv(s) && Enabled(s, e) && Closing(s, t) && !(Begins(e) && e.t == t)
    ensures Closing(Next(s, e), t)
  {
  }

  lemma {:induction false} ClosingAlways(cap: nat, es: seq<Step>, i: nat, t: Tid)
    requires Legal(cap, es) && Began(es, i, t) && es[i].CloseBegin? && !Run(cap, es[..i]).closed
    ensures Closing(Run(cap, es), t)
  {
    hide Next, Enabled, Inv, Closing;
    var n := |es| - 1;
    InvAlways(cap, es[..n]);
    if i == n {
      CloseStarts(Run(cap, es[..n]), t);
    } else {
      assert es[..n][..i] == es[..i];
      ClosingAlways(cap, es[..n], i, t);
      ClosingStep(Run(cap, es[..n]), es[n], t);
    }
  }

  lemma CloseStarts(s: State, t: Tid)
    requires Enabled(s, CloseBegin(t)) && !s.closed
    ensures Closing(Next(s, CloseBegin(t)), t)
  {
  }

  /** Over every run: a Close that began on an open writer returns only with every accepted line written. */
  lemma {:induction false} FirstCloseWrites(cap: nat, es: seq<Step>, i: nat, t: Tid)
    requires Legal(cap, es) && Began(es, i, t) && es[i].CloseBegin? && !Run(cap, es[..i]).closed
    requires At(Run(cap, es), t).Idle?
    ensures Run(cap, es).written == Run(cap, es).accepted && Run(cap, es).closed
  {
    ClosingAlways(cap, es, i, t);
    InvAlways(cap, es);
  }

  // ---------------------------------------------------------------- no deadlock

  /** Steps of its own a call has still to take. */
  function StepsToReturn(pc: Pc): nat {
    match pc
    case Idle => 0
    case LogLocked(_) => 3
    case LogSending(_) => 2
    case LogUnlocking => 1
    case FlushLocked => 4
    case FlushSending(_) => 3
    case FlushSent(_) => 2
    case FlushWaiting(_) => 1
    case FlushSkipping => 1
    case CloseLocked => 3
    case CloseMarked => 2
    case CloseWaiting => 1
    case CloseSkipping => 1
  }

  /** Steps the worker can take by itself. */
  function Backlog(s: State): nat {
    2 * |s.queue| + (if s.hand.Some? then 1 else 0) + (if s.workerDone then 0 else 1)
  }

  /** An item sent costs the worker two steps, which the sender's own step pays for. */
  function Distance(s: State, t: Tid): nat {
    3 * StepsToReturn(At(s, t)) + Backlog(s)
  }

  ghost predicate Begins(e: Step) {
    e.LogBegin? || e.FlushBegin? || e.CloseBegin?
  }

  /** A step of the worker, or of the call itself. */
  ghost predicate Alone(e: Step, t: Tid) {
    ByWorker(e) || (e.t == t && !Begins(e))
  }

  lemma WorkerMoves(s: State) returns (e: Step)
    requires !s.workerDone && (s.hand.Some? || s.queue != [] || s.closed)
    ensures ByWorker(e) && Enabled(s, e)
    ensures Backlog(Next(s, e)) < Backlog(s) && Next(s, e).threads == s.threads && Next(s, e).cap == s.cap
  {
    e := if s.hand.Some? then WorkerHandle else if s.queue != [] then WorkerTake else WorkerExit;
  }

  /** Where a call waits for the worker, the worker has something to do. */
  lemma WaitsForWorker(s: State, t: Tid)
    requires Inv(s) && s.cap >= 1 && t in s.threads
    requires var pc := s.threads[t];
      || ((pc.LogSending? || pc.FlushSending?) && |s.queue| >= s.cap)
      || (pc.FlushWaiting? && pc.marker !in s.flushed)
      || (pc.CloseWaiting? && !s.workerDone)
    ensures !s.workerDone && (s.hand.Some? || s.queue != [] || s.closed)
  {
    assert PlaceInv(s, s.threads[t]);
  }

  /** The call's own next step, if the worker need not move first. */
  function OwnStep(s: State, t: Tid): Option<Step> {
    match At(s, t)
    case Idle => None
    case LogLocked(_) => Some(LogCheck(t))
    case LogSending(_) => if |s.queue| < s.cap then Some(LogSend(t)) else None
    case LogUnlocking => Some(LogEnd(t))
    case FlushLocked => Some(FlushCheck(t))
    case FlushSending(_) => if |s.queue| < s.cap then Some(FlushSend(t)) else None
    case FlushSent(_) => Some(FlushUnlock(t))
    case FlushWaiting(m) => if m in s.flushed then Some(FlushReturn(t)) else None
    case FlushSkipping => Some(FlushUnlock(t))
    case CloseLocked => Some(CloseCheck(t))
    case CloseMarked => Some(CloseUnlock(t))
    case CloseWaiting => if s.workerDone then Some(CloseReturn(t)) else None
    case CloseSkipping => Some(CloseUnlock(t))
  }

  lemma OwnStepAdvances(s: State, t: Tid)
    requires OwnStep(s, t).Some?
    ensures var e := OwnStep(s, t).value;
      Enabled(s, e) && !ByWorker(e) && e.t == t && !Begins(e) && Next(s, e).cap == s.cap && Distance(Next(s, e), t) < Distance(s, t)
  {
  }

  /** While a call is under way, it or the worker can take a step that brings its return nearer. */
  lemma Advance(s: State, t: Tid) returns (e: Step)
    requires Inv(s) && s.cap >= 1 && !At(s, t).Idle?
    ensures Enabled(s, e) && Alone(e, t) && Next(s, e).cap == s.cap && Distance(Next(s, e), t) < Distance(s, t)
  {
    hide Inv, Enabled, Next, Backlog;
    if OwnStep(s, t).Some? {
      OwnStepAdvances(s, t);
      e := OwnStep(s, t).value;
    } else {
      WaitsForWorker(s, t);
      e := WorkerMoves(s);
    }
  }

  /** Locks, channel and worker cannot block each other. */
  lemma {:induction false} NoDeadlock(cap: nat, es: seq<Step>, t: Tid)
    requires Legal(cap, es) && cap >= 1 && !At(Run(cap, es), t).Idle?
    ensures exists e :: Enabled(Run(cap, es), e) && (ByWorker(e) || e.t == t)
  {
    InvAlways(cap, es);
    CapIsConstant(cap, es);
    var e := Advance(Run(cap, es), t);
  }

  /**
   From every reachable state a call under way can be brought to its return by its own steps and the
   worker's alone, within a number of steps fixed by the capacity, whatever the other callers hold.
  */
  lemma {:induction false} CallsCanReturn(cap: nat, es: seq<Step>, t: Tid) returns (fs: seq<Step>)
    requires Legal(cap, es) && cap >= 1
    ensures Legal(cap, es + fs) && At(Run(cap, es + fs), t).Idle?
    ensures forall i | 0 <= i < |fs| :: Alone(fs[i], t)
    ensures |fs| <= Distance(Run(cap, es), t) <= 2 * cap + 14
    decreases Distance(Run(cap, es), t)
  {
    hide Legal, Run, Next, Enabled, Inv, Distance, Alone;
    var s := Run(cap, es);
    InvAlways(cap, es);
    CapIsConstant(cap, es);
    DistanceBound(s, t);
    if At(s, t).Idle? {
      fs := [];
      assert es + fs == es;
    } else {
      var e := Advance(s, t);
      Extend(cap, es, e);
      var rest := CallsCanReturn(cap, es + [e], t);
      fs := [e] + rest;
      assert es + fs == es + [e] + rest;
    }
  }

  lemma DistanceBound(s: State, t: Tid)
    requires Inv(s)
    ensures Distance(s, t) <= 2 * s.cap + 14
  {
  }

  // ---------------------------------------------------------------- the writer object

  class WriterState {
    const cap: nat
    var queue: seq<Item>
    var closed: bool
    var written: seq<nat>
    var flushed: set<Item>

    ghost predicate Valid()
      reads this
    {
      |queue| <= cap
    }

    /** A non-positive size gives the default of 1024. */
    constructor (size: int)
      ensures Valid() && cap == (if size <= 0 then 1024 else size)
      ensures queue == [] && !closed && written == [] && flushed == {}
    {
      cap := if size <= 0 then 1024 else size;
      queue, closed, written, flushed := [], false, [], {};
    }

    /** The locked part of log once the channel has room: send unless closed. */
    method Write(line: nat) returns (sent: bool)
      requires Valid() && |queue| < cap
      modifies this
      ensures Valid() && closed == old(closed) && written == old(written) && flushed == old(flushed)
      ensures sent == !closed
      ensures queue == if sent then old(queue) + [Line(line)] else old(queue)
    {
      if closed {
        return false;
      }
      queue := queue + [Line(line)];
      return true;
    }

    /** The locked part of Close: only the first call closes the channel and must wait. */
    method MarkClosed() returns (first: bool)
      modifies this`closed
      ensures closed && first == !old(closed)
    {
      first := !closed;
      closed := true;
    }

    /** The worker loop, from a moment when no caller sends any more until the channel is empty. */
    method RunWriter()
      requires Valid()
      modifies this
      ensures Valid() && queue == [] && closed == old(closed)
      ensures written == old(written) + Lines(old(queue))
      ensures flushed == old(flushed) + set m | m in old(queue) && m.Marker?
    {
      ghost var all := queue;
      ghost var k := 0;
      assert all[..0] == [];
      while |queue| > 0
        invariant 0 <= k <= |all| && queue == all[k..] && closed == old(closed)
        invariant written == old(written) + Lines(all[..k])
        invariant flushed == old(flushed) + set m | m in all[..k] && m.Marker?
        decreases |queue|
      {
        var item := queue[0];
        assert all[..k + 1] == all[..k] + [item];
        LinesBack(all[..k], item);
        queue := queue[1..];
        if item.Marker? {
          flushed := flushed + {item};
        } else {
          written := written + [item.data];
        }
        k := k + 1;
      }
      assert all[..k] == all;
    }
  }
}
