/**
 The stream wrapper of resilience/interceptor.go: an admitted stream reports one outcome to its
 breaker, decided by the first terminal result seen on SendMsg, RecvMsg or CloseSend.
*/
module StreamBreaker {
  import opened Common
  import opened CircuitBreakers

  datatype Result = Nil | Eof | Failed(code: int)

  datatype Op = SendMsg(result: Result) | RecvMsg(result: Result) | CloseSend(result: Result)

  /** Which errors the breaker counts as failures (IsFailure; by default every error). */
  type Classifier = Result -> bool

  /** The outcome an operation reports if it is the first terminal one; true is success. */
  function Outcome(fails: Classifier, serverStreams: bool, op: Op): Option<bool> {
    match op
    case SendMsg(r) => if r.Nil? then None else Some(!fails(r))
    case CloseSend(r) => if r.Nil? then None else Some(!fails(r))
    case RecvMsg(r) =>
      if r.Eof? then Some(true)
      else if r.Failed? then Some(!fails(r))
      else if !serverStreams then Some(true)
      else None
  }

  /** The outcome of the first terminal operation of a stream. */
  function FirstOutcome(fails: Classifier, serverStreams: bool, ops: seq<Op>): Option<bool> {
    if |ops| == 0 then None
    else
      var earlier := FirstOutcome(fails, serverStreams, ops[..|ops| - 1]);
      if earlier.Some? then earlier else Outcome(fails, serverStreams, ops[|ops| - 1])
  }

  lemma FirstOutcomeAppend(fails: Classifier, serverStreams: bool, ops: seq<Op>, op: Op)
    ensures var earlier := FirstOutcome(fails, serverStreams, ops);
      FirstOutcome(fails, serverStreams, ops + [op])
        == if earlier.Some? then earlier else Outcome(fails, serverStreams, op)
  {
    assert (ops + [op])[..|ops|] == ops;
  }

  /** What the breaker does with an outcome. */
  function Recorded(c: Config, b: Breaker, outcome: Option<bool>, now: int, later: int): Breaker {
    match outcome
    case None => b
    case Some(ok) => if ok then AfterSuccess(c, b, later) else AfterFailure(c, b, now, later)
  }

  // ---------------------------------------------------------------- the wrapper

  class CircuitBreakingClientStream {
    const cb: CircuitBreaker
    const serverStreams: bool
    const fails: Classifier
    var done: bool            // the once latch has fired
    ghost var ops: seq<Op>    // operations so far

    ghost predicate Valid()
      reads this
    {
      done == FirstOutcome(fails, serverStreams, ops).Some?
    }

    constructor (cb: CircuitBreaker, serverStreams: bool, fails: Classifier)
      ensures Valid() && ops == [] && this.cb == cb && this.serverStreams == serverStreams && this.fails == fails
    {
      this.cb, this.serverStreams, this.fails := cb, serverStreams, fails;
      done, ops := false, [];
    }

    /** The breaker hears of an operation only if it is the first terminal one. */
    twostate predicate Reported(op: Op, now: int, later: int)
      reads this, cb
    {
      && ops == old(ops) + [op]
      && cb.View() == Recorded(cb.config, old(cb.View()),
           if FirstOutcome(fails, serverStreams, old(ops)).Some? then None else Outcome(fails, serverStreams, op),
           now, later)
    }

    method Send(result: Result, now: int, later: int)
      requires Valid()
      modifies this, cb
      ensures Valid() && Reported(SendMsg(result), now, later)
    {
      hide FirstOutcome, AfterSuccess, AfterFailure;
      if !result.Nil? {
        RecordResult(result, now, later);
      }
      FirstOutcomeAppend(fails, serverStreams, ops, SendMsg(result));
      ops := ops + [SendMsg(result)];
    }

    method Recv(result: Result, now: int, later: int)
      requires Valid()
      modifies this, cb
      ensures Valid() && Reported(RecvMsg(result), now, later)
    {
      hide FirstOutcome, AfterSuccess, AfterFailure;
      if result.Eof? {
        RecordOnce(true, now, later);
      } else if !result.Nil? {
        RecordResult(result, now, later);
      } else if !serverStreams {
        RecordOnce(true, now, later);
      }
      FirstOutcomeAppend(fails, serverStreams, ops, RecvMsg(result));
      ops := ops + [RecvMsg(result)];
    }

    method Close(result: Result, now: int, later: int)
      requires Valid()
      modifies this, cb
      ensures Valid() && Reported(CloseSend(result), now, later)
    {
      hide FirstOutcome, AfterSuccess, AfterFailure;
      if !result.Nil? {
        RecordResult(result, now, later);
      }
      FirstOutcomeAppend(fails, serverStreams, ops, CloseSend(result));
      ops := ops + [CloseSend(result)];
    }

    method RecordResult(result: Result, now: int, later: int)
      modifies this`done, cb
      ensures done
      ensures cb.View() == Recorded(cb.config, old(cb.View()), if old(done) then None else Some(!fails(result)), now, later)
    {
      RecordOnce(!fails(result), now, later);
    }

    method RecordOnce(ok: bool, now: int, later: int)
      modifies this`done, cb
      ensures done
      ensures cb.View() == Recorded(cb.config, old(cb.View()), if old(done) then None else Some(ok), now, later)
    {
      if !done {
        done := true;
        if ok {
          cb.RecordSuccess(later);
        } else {
          cb.RecordFailure(now, later);
        }
      }
    }
  }

  // ---------------------------------------------------------------- any set of streams over one breaker

  /**
   A call of the interceptor asks for admission, then dials, and hands out a stream if that went
   well; the streams' operations follow. Any other stream may act in between.
  */
  datatype Action =
    | OpenStream(id: nat, serverStreams: bool, now: int, later: int)
    | Dial(id: nat, result: Result, now: int, later: int)
    | Operate(id: nat, op: Op, now: int, later: int)

  datatype Stream = Stream(serverStreams: bool, dial: Option<Result>, ops: seq<Op>, outcome: Option<bool>)

  /** The streams admitted so far, and the breaker events they have caused. */
  datatype System = System(streams: map<nat, Stream>, trace: seq<Event>)

  /** The stream moves on to st, and its first outcome goes to the breaker. */
  function Heard(s: System, id: nat, st: Stream, o: Option<bool>, now: int, later: int): System {
    if st.outcome.Some? || o.None? then s.(streams := s.streams[id := st])
    else System(s.streams[id := st.(outcome := o)], s.trace + [Report(id, o.value, now, later)])
  }

  function AfterAction(c: Config, fails: Classifier, s: System, a: Action): System {
    match a
    case OpenStream(id, ss, now, later) =>
      var trace := s.trace + [Ask(id, now, later)];
      System(if Admits(c, Run(c, s.trace).cb, now) then s.streams[id := Stream(ss, None, [], None)] else s.streams, trace)
    case Dial(id, result, now, later) =>
      if id !in s.streams || s.streams[id].dial.Some? then s
      else Heard(s, id, s.streams[id].(dial := Some(result)), DialOutcome(fails, result), now, later)
    case Operate(id, op, now, later) =>
      if id !in s.streams || s.streams[id].dial != Some(Nil) then s
      else
        var st := s.streams[id];
        Heard(s, id, st.(ops := st.ops + [op]), Outcome(fails, st.serverStreams, op), now, later)
  }

  /** Only a failing dial is reported by the interceptor itself. */
  function DialOutcome(fails: Classifier, result: Result): Option<bool> {
    if result.Nil? then None else Some(!fails(result))
  }

  function RunActions(c: Config, fails: Classifier, acts: seq<Action>): System {
    if |acts| == 0 then System(map[], [])
    else AfterAction(c, fails, RunActions(c, fails, acts[..|acts| - 1]), acts[|acts| - 1])
  }

  /** The clock does not run backwards and stream ids are not reused. */
  ghost predicate Feasible(c: Config, fails: Classifier, acts: seq<Action>) {
    |acts| > 0 ==>
      var s, a := RunActions(c, fails, acts[..|acts| - 1]), acts[|acts| - 1];
      && Feasible(c, fails, acts[..|acts| - 1])
      && Run(c, s.trace).clock <= a.now <= a.later
      && (a.OpenStream? ==> a.id !in s.streams)
  }

  /** How many outcomes the breaker has been told for a request. */
  function ReportsOf(es: seq<Event>, id: nat): (n: nat) {
    if |es| == 0 then 0
    else ReportsOf(es[..|es| - 1], id) + (if es[|es| - 1].Report? && es[|es| - 1].id == id then 1 else 0)
  }

  /** The outcome the breaker was told last for a request. */
  function ReportedOutcome(es: seq<Event>, id: nat): Option<bool> {
    if |es| == 0 then None
    else if es[|es| - 1].Report? && es[|es| - 1].id == id then Some(es[|es| - 1].ok)
    else ReportedOutcome(es[..|es| - 1], id)
  }

  lemma ReportsOfAppend(es: seq<Event>, e: Event, id: nat)
    ensures var mine := e.Report? && e.id == id;
      && ReportsOf(es + [e], id) == ReportsOf(es, id) + (if mine then 1 else 0)
      && ReportedOutcome(es + [e], id) == if mine then Some(e.ok) else ReportedOutcome(es, id)
  {
    assert (es + [e])[..|es|] == es;
  }

  /** A stream that failed to dial reports that; any other reports its first terminal operation. */
  function Verdict(fails: Classifier, st: Stream): Option<bool> {
    if st.dial.None? then None
    else if st.dial.value.Nil? then FirstOutcome(fails, st.serverStreams, st.ops)
    else Some(!fails(st.dial.value))
  }

  /** What the breaker knows of one request agrees with its stream. */
  ghost predicate Agrees(c: Config, fails: Classifier, s: System, id: nat) {
    var outcome := if id in s.streams then s.streams[id].outcome else None;
    && (id in Run(c, s.trace).running <==> id in s.streams && outcome.None?)
    && ReportsOf(s.trace, id) == (if outcome.Some? then 1 else 0)
    && ReportedOutcome(s.trace, id) == outcome
    && (id in s.streams ==> outcome == Verdict(fails, s.streams[id]) && (s.streams[id].dial != Some(Nil) ==> s.streams[id].ops == []))
  }

  ghost predicate SystemInv(c: Config, fails: Classifier, s: System) {
    Legal(c, s.trace) && forall id: nat :: Agrees(c, fails, s, id)
  }

  lemma AskRuns(c: Config, s: Observed, e: Event, id: nat)
    requires e.Ask?
    ensures id in Step(c, s, e).running <==> id in s.running || (id == e.id && Admits(c, s.cb, e.now))
    ensures Step(c, s, e).clock == e.later
  {
  }

  lemma ReportEnds(c: Config, s: Observed, e: Event, id: nat)
    requires e.Report?
    ensures id in Step(c, s, e).running <==> id in s.running && id != e.id
  {
  }

  /** What the wrapper does to the breaker is the event that the runs record. */
  lemma RecordedIsReport(c: Config, s: Observed, id: nat, outcome: Option<bool>, now: int, later: int)
    ensures Recorded(c, s.cb, outcome, now, later)
      == if outcome.Some? then Step(c, s, Report(id, outcome.value, now, later)).cb else s.cb
  {
  }

  lemma OpenKeepsInv(c: Config, fails: Classifier, s: System, a: Action)
    requires SystemInv(c, fails, s) && a.OpenStream? && a.id !in s.streams
    requires Run(c, s.trace).clock <= a.now <= a.later
    ensures SystemInv(c, fails, AfterAction(c, fails, s, a))
  {
    hide Run, Admits, Step, ReportsOf, ReportedOutcome;
    var ask := Ask(a.id, a.now, a.later);
    assert Agrees(c, fails, s, a.id);
    Extend(c, s.trace, ask);
    forall id: nat ensures Agrees(c, fails, AfterAction(c, fails, s, a), id) {
      assert Agrees(c, fails, s, id);
      AskRuns(c, Run(c, s.trace), ask, id);
      ReportsOfAppend(s.trace, ask, id);
    }
  }

  /** A stream that moves on, with the verdict its outcome says it has. */
  ghost predicate MovesOn(fails: Classifier, s: System, id: nat, st: Stream, o: Option<bool>) {
    && id in s.streams && st.outcome == s.streams[id].outcome && (st.dial != Some(Nil) ==> st.ops == [])
    && Verdict(fails, st) == (if st.outcome.Some? then st.outcome else o)
  }

  lemma HeardAgrees(c: Config, fails: Classifier, s: System, id: nat, st: Stream, o: Option<bool>, now: int, later: int, other: nat)
    requires SystemInv(c, fails, s) && MovesOn(fails, s, id, st, o)
    requires Run(c, s.trace).clock <= now <= later
    ensures Legal(c, Heard(s, id, st, o, now, later).trace) && Agrees(c, fails, Heard(s, id, st, o, now, later), other)
  {
    hide Run, Step, ReportsOf, ReportedOutcome, FirstOutcome, Legal, Outcome;
    assert Agrees(c, fails, s, id);
    assert Agrees(c, fails, s, other);
    if st.outcome.None? && o.Some? {
      var report := Report(id, o.value, now, later);
      Extend(c, s.trace, report);
      ReportEnds(c, Run(c, s.trace), report, other);
      ReportsOfAppend(s.trace, report, other);
    }
  }

  lemma HeardKeepsInv(c: Config, fails: Classifier, s: System, id: nat, st: Stream, o: Option<bool>, now: int, later: int)
    requires SystemInv(c, fails, s) && MovesOn(fails, s, id, st, o)
    requires Run(c, s.trace).clock <= now <= later
    ensures SystemInv(c, fails, Heard(s, id, st, o, now, later))
  {
    hide Agrees, Run, Legal, Heard, MovesOn;
    HeardAgrees(c, fails, s, id, st, o, now, later, id);
    forall other: nat ensures Agrees(c, fails, Heard(s, id, st, o, now, later), other) {
      HeardAgrees(c, fails, s, id, st, o, now, later, other);
    }
  }

  lemma DialKeepsInv(c: Config, fails: Classifier, s: System, a: Action)
    requires SystemInv(c, fails, s) && a.Dial?
    requires Run(c, s.trace).clock <= a.now <= a.later
    ensures SystemInv(c, fails, AfterAction(c, fails, s, a))
  {
    hide Run, Heard, Legal;
    if a.id in s.streams && s.streams[a.id].dial.None? {
      assert Agrees(c, fails, s, a.id);
      var st := s.streams[a.id].(dial := Some(a.result));
      HeardKeepsInv(c, fails, s, a.id, st, DialOutcome(fails, a.result), a.now, a.later);
    }
  }

  lemma OperateKeepsInv(c: Config, fails: Classifier, s: System, a: Action)
    requires SystemInv(c, fails, s) && a.Operate?
    requires Run(c, s.trace).clock <= a.now <= a.later
    ensures SystemInv(c, fails, AfterAction(c, fails, s, a))
  {
    hide Run, Heard, Legal, FirstOutcome, Outcome;
    if a.id in s.streams && s.streams[a.id].dial == Some(Nil) {
      assert Agrees(c, fails, s, a.id);
      var st := s.streams[a.id];
      FirstOutcomeAppend(fails, st.serverStreams, st.ops, a.op);
      HeardKeepsInv(c, fails, s, a.id, st.(ops := st.ops + [a.op]), Outcome(fails, st.serverStreams, a.op), a.now, a.later);
    }
  }

  lemma {:induction false} SystemInvAlways(c: Config, fails: Classifier, acts: seq<Action>)
    requires Feasible(c, fails, acts)
    ensures SystemInv(c, fails, RunActions(c, fails, acts))
  {
    if |acts| > 0 {
      var s, a := RunActions(c, fails, acts[..|acts| - 1]), acts[|acts| - 1];
      SystemInvAlways(c, fails, acts[..|acts| - 1]);
      match a
      case OpenStream(_, _, _, _) => OpenKeepsInv(c, fails, s, a);
      case Dial(_, _, _, _) => DialKeepsInv(c, fails, s, a);
      case Operate(_, _, _, _) => OperateKeepsInv(c, fails, s, a);
    }
  }

  /** How the latest call under an id was asked to stream, how its dial went, and its operations, by the actions alone. */
  function Story(acts: seq<Action>, id: nat): (bool, Option<Result>, seq<Op>) {
    if |acts| == 0 then (false, None, [])
    else
      var (ss, dial, ops) := Story(acts[..|acts| - 1], id);
      match acts[|acts| - 1]
      case OpenStream(i, streams, _, _) => if i == id then (streams, None, []) else (ss, dial, ops)
      case Dial(i, result, _, _) => (ss, if i == id && dial.None? then Some(result) else dial, ops)
      case Operate(i, op, _, _) => (ss, dial, if i == id && dial == Some(Nil) then ops + [op] else ops)
  }

  lemma StoryStep(c: Config, fails: Classifier, s: System, a: Action, id: nat)
    requires id in AfterAction(c, fails, s, a).streams
    requires a.OpenStream? ==> a.id !in s.streams
    ensures var t := AfterAction(c, fails, s, a).streams[id];
      match a
      case OpenStream(i, streams, _, _) =>
        if i == id then t.serverStreams == streams && t.dial.None? && t.ops == [] else id in s.streams && t == s.streams[id]
      case Dial(i, result, _, _) =>
        && id in s.streams && t.serverStreams == s.streams[id].serverStreams && t.ops == s.streams[id].ops
        && t.dial == if i == id && s.streams[id].dial.None? then Some(result) else s.streams[id].dial
      case Operate(i, op, _, _) =>
        && id in s.streams && t.serverStreams == s.streams[id].serverStreams && t.dial == s.streams[id].dial
        && t.ops == if i == id && s.streams[id].dial == Some(Nil) then s.streams[id].ops + [op] else s.streams[id].ops
  {
    hide Outcome, Run, Admits;
  }

  /** Every stream that was let in carries exactly what its actions did: no dial or operation goes missing. */
  lemma {:induction false} StreamsTellTheirStory(c: Config, fails: Classifier, acts: seq<Action>, id: nat)
    requires Feasible(c, fails, acts) && id in RunActions(c, fails, acts).streams
    ensures var st := RunActions(c, fails, acts).streams[id];
      (st.serverStreams, st.dial, st.ops) == Story(acts, id)
  {
    hide AfterAction;
    var before := acts[..|acts| - 1];
    var s := RunActions(c, fails, before);
    StoryStep(c, fails, s, acts[|acts| - 1], id);
    if id in s.streams { StreamsTellTheirStory(c, fails, before, id); }
  }

  /**
   Over any interleaving of any streams: the breaker sees a legal run, hears of each stream at
   most once, exactly once when its verdict is in, and is then told that verdict.
  */
  lemma {:induction false} OneOutcomePerStream(c: Config, fails: Classifier, acts: seq<Action>, id: nat)
    requires Feasible(c, fails, acts)
    ensures var s := RunActions(c, fails, acts);
      && Legal(c, s.trace)
      && ReportsOf(s.trace, id) == (if id in s.streams && Verdict(fails, s.streams[id]).Some? then 1 else 0)
      && ReportedOutcome(s.trace, id) == (if id in s.streams then Verdict(fails, s.streams[id]) else None)
  {
    SystemInvAlways(c, fails, acts);
    assert Agrees(c, fails, RunActions(c, fails, acts), id);
  }

  /** The verdict is settled by the first terminal operation: later operations cannot change it. */
  lemma {:induction false} VerdictIsFirst(fails: Classifier, serverStreams: bool, ops: seq<Op>, k: nat)
    requires k < |ops|
    requires Outcome(fails, serverStreams, ops[k]).Some?
    requires forall i | 0 <= i < k :: Outcome(fails, serverStreams, ops[i]).None?
    ensures FirstOutcome(fails, serverStreams, ops) == Outcome(fails, serverStreams, ops[k])
  {
    if k < |ops| - 1 {
      VerdictIsFirst(fails, serverStreams, ops[..|ops| - 1], k);
    } else {
      NoVerdictYet(fails, serverStreams, ops[..k]);
    }
  }

  lemma {:induction false} NoVerdictYet(fails: Classifier, serverStreams: bool, ops: seq<Op>)
    requires forall i | 0 <= i < |ops| :: Outcome(fails, serverStreams, ops[i]).None?
    ensures FirstOutcome(fails, serverStreams, ops).None?
  {
    if |ops| > 0 { NoVerdictYet(fails, serverStreams, ops[..|ops| - 1]); }
  }

  /** An operation that says nothing of how the call will end. */
  predicate Uneventful(serverStreams: bool, op: Op) {
    op.result.Nil? && (op.RecvMsg? ==> serverStreams)
  }

  /**
   How a call is judged: not at all while its operations are uneventful; by the first that is not,
   a success at the end of the stream and at the one reply of a unary response, and whatever the
   classifier says of any other error. What comes later does not matter.
  */
  lemma {:induction false} JudgedByFirstEvent(fails: Classifier, serverStreams: bool, quiet: seq<Op>, op: Op, rest: seq<Op>)
    requires forall i | 0 <= i < |quiet| :: Uneventful(serverStreams, quiet[i])
    requires !Uneventful(serverStreams, op)
    ensures FirstOutcome(fails, serverStreams, quiet).None?
    ensures FirstOutcome(fails, serverStreams, quiet + [op] + rest)
      == Some(if op.RecvMsg? && !op.result.Failed? then true else !fails(op.result))
  {
    var ops := quiet + [op] + rest;
    assert forall i | 0 <= i < |quiet| :: ops[i] == quiet[i];
    NoVerdictYet(fails, serverStreams, quiet);
    VerdictIsFirst(fails, serverStreams, ops, |quiet|);
  }

  /** All outcomes reported, and all admissions granted. */
  function TotalReports(es: seq<Event>): (n: nat) {
    if |es| == 0 then 0 else TotalReports(es[..|es| - 1]) + (if es[|es| - 1].Report? then 1 else 0)
  }

  function Admissions(c: Config, es: seq<Event>): (n: nat) {
    if |es| == 0 then 0
    else
      var granted := es[|es| - 1].Ask? && Admits(c, Run(c, es[..|es| - 1]).cb, es[|es| - 1].now);
      Admissions(c, es[..|es| - 1]) + (if granted then 1 else 0)
  }

  /** In any legal run, what was admitted and not reported is still running. */
  lemma {:induction false} AdmissionsBalance(c: Config, es: seq<Event>)
    requires Legal(c, es)
    ensures Admissions(c, es) == TotalReports(es) + |Run(c, es).running|
  {
    if |es| > 0 {
      var before, e := es[..|es| - 1], es[|es| - 1];
      AdmissionsBalance(c, before);
      var m := Run(c, before).running;
      if e.Report? {
        var left: map<nat, nat> := m - {e.id};
        assert m.Keys == left.Keys + {e.id};
      }
    }
  }

  /** The streams being dialled, and those no terminal operation has been seen on. */
  function Undecided(fails: Classifier, streams: map<nat, Stream>): set<nat> {
    set id | id in streams && Verdict(fails, streams[id]).None?
  }

  /** Over any set of streams, every admission is a recorded outcome or a stream still undecided. */
  lemma AdmissionsOfStreams(c: Config, fails: Classifier, acts: seq<Action>)
    requires Feasible(c, fails, acts)
    ensures var s := RunActions(c, fails, acts);
      Admissions(c, s.trace) == TotalReports(s.trace) + |Undecided(fails, s.streams)|
  {
    hide Run, Verdict, RunActions, Feasible;
    var s := RunActions(c, fails, acts);
    SystemInvAlways(c, fails, acts);
    AdmissionsBalance(c, s.trace);
    forall id: nat ensures id in Run(c, s.trace).running <==> id in Undecided(fails, s.streams) {
      assert Agrees(c, fails, s, id);
    }
    assert Run(c, s.trace).running.Keys == Undecided(fails, s.streams);
  }
}
