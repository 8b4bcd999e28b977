/**
 The circuit breaker of resilience/circuitbreaker.go.

 The breaker itself keeps only counters. To say what they mean, a run is observed together with
 the identity of every admitted request and the epoch (the number of state changes so far) in
 which it was admitted. A request that finishes in a later half-open epoch than its own is stale:
 the breaker cannot tell it from a probe.
*/
module CircuitBreakers {

  datatype CircuitState = Closed | Open | HalfOpen

  datatype Config = Config(failureThreshold: int, successThreshold: int, openDuration: int, halfOpenMaxReqs: int)

  ghost predicate ValidConfig(c: Config) {
    c.failureThreshold > 0 && c.successThreshold > 0 && c.openDuration > 0 && c.halfOpenMaxReqs > 0
  }

  /** The breaker's fields; times are readings of a clock that never runs backwards. */
  datatype Breaker = Breaker(state: CircuitState, failureCount: int, successCount: int, halfOpenReqs: int,
                             lastFailure: int, lastStateTime: int)

  function NewBreaker(now: int): Breaker {
    Breaker(Closed, 0, 0, 0, 0, now)
  }

  function ToOpen(b: Breaker, now: int): Breaker {
    b.(state := Open, lastStateTime := now, successCount := 0, halfOpenReqs := 0)
  }

  function ToHalfOpen(b: Breaker, now: int): Breaker {
    b.(state := HalfOpen, lastStateTime := now, successCount := 0, failureCount := 0, halfOpenReqs := 0)
  }

  function ToClosed(b: Breaker, now: int): Breaker {
    b.(state := Closed, lastStateTime := now, failureCount := 0, successCount := 0, halfOpenReqs := 0)
  }

  function FinishHalfOpenRequest(b: Breaker): Breaker {
    if b.halfOpenReqs > 0 then b.(halfOpenReqs := b.halfOpenReqs - 1) else b
  }

  predicate Admits(c: Config, b: Breaker, now: int) {
    match b.state
    case Closed => true
    case Open => now - b.lastStateTime >= c.openDuration
    case HalfOpen => b.halfOpenReqs < c.halfOpenMaxReqs
  }

  function AfterAllow(c: Config, b: Breaker, now: int, later: int): Breaker {
    if !Admits(c, b, now) || b.state.Closed? then b
    else
      var b' := if b.state.Open? then ToHalfOpen(b, later) else b;
      b'.(halfOpenReqs := b'.halfOpenReqs + 1)
  }

  function AfterSuccess(c: Config, b: Breaker, now: int): Breaker {
    match b.state
    case Closed => b.(failureCount := 0)
    case Open => b
    case HalfOpen =>
      var b' := FinishHalfOpenRequest(b);
      var b'' := b'.(successCount := b'.successCount + 1);
      if b''.successCount >= c.successThreshold then ToClosed(b'', now) else b''
  }

  function AfterFailure(c: Config, b: Breaker, now: int, later: int): Breaker {
    var f := b.(lastFailure := now);
    match b.state
    case Closed =>
      var f' := f.(failureCount := f.failureCount + 1);
      if f'.failureCount >= c.failureThreshold then ToOpen(f', later) else f'
    case Open => f
    case HalfOpen => ToOpen(FinishHalfOpenRequest(f), later)
  }

  datatype CallResult = Returned | Errored(counts: bool)

  predicate Good(outcome: CallResult) {
    outcome == Returned || outcome == Errored(false)
  }

  function AfterExecute(c: Config, b: Breaker, outcome: CallResult, now: int, later: int, end: int, last: int): Breaker {
    var b' := AfterAllow(c, b, now, later);
    if !Admits(c, b, now) then b
    else if Good(outcome) then AfterSuccess(c, b', last)
    else AfterFailure(c, b', end, last)
  }

  // ---------------------------------------------------------------- the class

  class CircuitBreaker {
    var state: CircuitState
    var failureCount: int
    var successCount: int
    var halfOpenReqs: int
    var lastFailure: int
    var lastStateTime: int
    const config: Config

    ghost function View(): Breaker
      reads this
    {
      Breaker(state, failureCount, successCount, halfOpenReqs, lastFailure, lastStateTime)
    }

    /** Non-positive settings take the defaults 5, 3, 30 seconds and 1. */
    constructor (c: Config, second: int, now: int)
      requires second > 0
      ensures ValidConfig(config) && View() == NewBreaker(now)
      ensures ValidConfig(c) ==> config == c
      ensures c.failureThreshold <= 0 ==> config.failureThreshold == 5
      ensures c.successThreshold <= 0 ==> config.successThreshold == 3
      ensures c.openDuration <= 0 ==> config.openDuration == 30 * second
      ensures c.halfOpenMaxReqs <= 0 ==> config.halfOpenMaxReqs == 1
    {
      config := Config(
        if c.failureThreshold <= 0 then 5 else c.failureThreshold,
        if c.successThreshold <= 0 then 3 else c.successThreshold,
        if c.openDuration <= 0 then 30 * second else c.openDuration,
        if c.halfOpenMaxReqs <= 0 then 1 else c.halfOpenMaxReqs);
      state, failureCount, successCount, halfOpenReqs := Closed, 0, 0, 0;
      lastFailure, lastStateTime := 0, now;
    }

    method Allow(now: int, later: int) returns (ok: bool)
      modifies this
      ensures ok == Admits(config, old(View()), now)
      ensures View() == AfterAllow(config, old(View()), now, later)
    {
      match state {
        case Closed => return true;
        case Open =>
          if now - lastStateTime >= config.openDuration {
            EnterHalfOpen(later);
            halfOpenReqs := halfOpenReqs + 1;
            return true;
          }
          return false;
        case HalfOpen =>
          if halfOpenReqs >= config.halfOpenMaxReqs {
            return false;
          }
          halfOpenReqs := halfOpenReqs + 1;
          return true;
      }
    }

    method RecordSuccess(now: int)
      modifies this
      ensures View() == AfterSuccess(config, old(View()), now)
    {
      match state {
        case Closed => failureCount := 0;
        case Open =>
        case HalfOpen =>
          FinishProbe();
          successCount := successCount + 1;
          if successCount >= config.successThreshold {
            EnterClosed(now);
          }
      }
    }

    method RecordFailure(now: int, later: int)
      modifies this
      ensures View() == AfterFailure(config, old(View()), now, later)
    {
      lastFailure := now;
      match state {
        case Closed =>
          failureCount := failureCount + 1;
          if failureCount >= config.failureThreshold {
            EnterOpen(later);
          }
        case Open =>
        case HalfOpen =>
          FinishProbe();
          EnterOpen(later);
      }
    }

    /**
     One guarded call. Its outcome is given: success, or an error that the configured test counts as
     a failure or not; the clock reads now and later at admission, end and last at the report.
    */
    method Execute(outcome: CallResult, now: int, later: int, end: int, last: int) returns (ran: bool)
      modifies this
      ensures ran == Admits(config, old(View()), now)
      ensures View() == AfterExecute(config, old(View()), outcome, now, later, end, last)
    {
      ran := Allow(now, later);
      if !ran {
        return;
      }
      if outcome.Errored? {
        if outcome.counts {
          RecordFailure(end, last);
        } else {
          RecordSuccess(last);
        }
        return;
      }
      RecordSuccess(last);
    }

    method EnterOpen(now: int)
      modifies this
      ensures View() == ToOpen(old(View()), now)
    {
      state, lastStateTime, successCount, halfOpenReqs := Open, now, 0, 0;
    }

    method EnterHalfOpen(now: int)
      modifies this
      ensures View() == ToHalfOpen(old(View()), now)
    {
      state, lastStateTime, successCount, failureCount, halfOpenReqs := HalfOpen, now, 0, 0, 0;
    }

    method EnterClosed(now: int)
      modifies this
      ensures View() == ToClosed(old(View()), now)
    {
      state, lastStateTime, failureCount, successCount, halfOpenReqs := Closed, now, 0, 0, 0;
    }

    method FinishProbe()
      modifies this
      ensures View() == FinishHalfOpenRequest(old(View()))
    {
      if halfOpenReqs > 0 {
        halfOpenReqs := halfOpenReqs - 1;
      }
    }
  }

  // ---------------------------------------------------------------- observed runs

  /** A request asks for admission, or an admitted request reports its outcome. */
  datatype Event =
    | Ask(id: nat, now: int, later: int)
    | Report(id: nat, ok: bool, now: int, later: int)

  /**
   The breaker together with what an observer knows: the epoch, the admission epoch of every
   request in flight, and the stale reports taken in the current epoch.
  */
  datatype Observed = Observed(cb: Breaker, epoch: nat, running: map<nat, nat>, stale: nat, clock: int)

  function Start(now: int): Observed {
    Observed(NewBreaker(now), 0, map[], 0, now)
  }

  ghost predicate Enabled(s: Observed, e: Event) {
    && s.clock <= e.now <= e.later
    && match e
       case Ask(id, _, _) => id !in s.running
       case Report(id, _, _, _) => id in s.running
  }

  function Step(c: Config, s: Observed, e: Event): Observed {
    match e
    case Ask(id, now, later) =>
      var cb := AfterAllow(c, s.cb, now, later);
      if !Admits(c, s.cb, now) then s.(clock := later)
      else
        var epoch := if cb.state == s.cb.state then s.epoch else s.epoch + 1;
        Observed(cb, epoch, s.running[id := epoch], if epoch == s.epoch then s.stale else 0, later)
    case Report(id, ok, now, later) =>
      var cb := if ok then AfterSuccess(c, s.cb, later) else AfterFailure(c, s.cb, now, later);
      var running := s.running - {id};
      if cb.state != s.cb.state then Observed(cb, s.epoch + 1, running, 0, later)
      else
        var late := s.cb.state.HalfOpen? && id in s.running && s.running[id] != s.epoch;
        Observed(cb, s.epoch, running, if late then s.stale + 1 else s.stale, later)
  }

  function Run(c: Config, es: seq<Event>): Observed {
    if |es| == 0 then Start(0) else Step(c, Run(c, es[..|es| - 1]), es[|es| - 1])
  }

  ghost predicate Legal(c: Config, es: seq<Event>) {
    |es| > 0 ==> Legal(c, es[..|es| - 1]) && Enabled(Run(c, es[..|es| - 1]), es[|es| - 1])
  }

  lemma Extend(c: Config, es: seq<Event>, e: Event)
    requires Legal(c, es) && Enabled(Run(c, es), e)
    ensures Legal(c, es + [e]) && Run(c, es + [e]) == Step(c, Run(c, es), e)
  {
    assert (es + [e])[..|es|] == es;
  }

  lemma {:induction false} LegalPrefix(c: Config, es: seq<Event>, k: nat)
    requires Legal(c, es) && k <= |es|
    ensures Legal(c, es[..k])
  {
    if k < |es| {
      LegalPrefix(c, es[..|es| - 1], k);
      assert es[..|es| - 1][..k] == es[..k];
    } else {
      assert es[..k] == es;
    }
  }

  // ---------------------------------------------------------------- half-open probe accounting

  /** The probes of the current half-open episode that are still in flight. */
  ghost function Probes(s: Observed): set<nat> {
    set id | id in s.running && s.running[id] == s.epoch
  }

  ghost predicate Accounted(c: Config, s: Observed) {
    && s.cb.halfOpenReqs <= |Probes(s)| <= s.cb.halfOpenReqs + s.stale
    && s.stale <= s.cb.successCount < c.successThreshold
    && 0 <= s.cb.halfOpenReqs <= c.halfOpenMaxReqs
  }

  ghost predicate Inv(c: Config, s: Observed) {
    && (forall id | id in s.running :: s.running[id] <= s.epoch)
    && match s.cb.state
       case Closed => 0 <= s.cb.failureCount < c.failureThreshold && s.cb.successCount == s.cb.halfOpenReqs == 0
       case Open => s.cb.successCount == s.cb.halfOpenReqs == 0 && Probes(s) == {}
       case HalfOpen => Accounted(c, s)
  }

  lemma AskKeepsInv(c: Config, s: Observed, e: Event)
    requires ValidConfig(c) && Inv(c, s) && Enabled(s, e) && e.Ask?
    ensures Inv(c, Step(c, s, e))
  {
    hide Probes;
    AskProbes(c, s, e);
    AdmissionMakesProbe(s, e.id, Step(c, s, e));
  }

  lemma ReportKeepsInv(c: Config, s: Observed, e: Event)
    requires ValidConfig(c) && Inv(c, s) && Enabled(s, e) && e.Report?
    ensures Inv(c, Step(c, s, e))
  {
    hide Probes;
    ReportProbes(c, s, e);
  }

  lemma ReportProbes(c: Config, s: Observed, e: Event)
    requires Enabled(s, e) && e.Report? && forall id | id in s.running :: s.running[id] <= s.epoch
    ensures var s' := Step(c, s, e);
      if s'.epoch == s.epoch then
        Probes(s') == Probes(s) - {e.id} && |Probes(s')| == |Probes(s)| - (if s.running[e.id] == s.epoch then 1 else 0)
      else Probes(s') == {}
  {
    var s' := Step(c, s, e);
    if s'.epoch == s.epoch {
      assert Probes(s') == Probes(s) - {e.id};
      assert e.id in Probes(s) <==> s.running[e.id] == s.epoch;
    }
  }

  /** A guarded call that nothing interrupts is an admission and its own report, and leaves no request behind. */
  lemma ExecuteIsAskThenReport(c: Config, s: Observed, id: nat, outcome: CallResult, now: int, later: int, end: int, last: int)
    requires Enabled(s, Ask(id, now, later)) && later <= end <= last
    ensures var s1 := Step(c, s, Ask(id, now, later));
      var report := Report(id, outcome == Returned || outcome == Errored(false), end, last);
      var s2 := Step(c, s1, report);
      && (id in s1.running <==> Admits(c, s.cb, now))
      && (id in s1.running ==> Enabled(s1, report) && s2.running == s.running)
      && AfterExecute(c, s.cb, outcome, now, later, end, last) == if id in s1.running then s2.cb else s.cb
  {
    assert s.running[id := s.epoch] - {id} == s.running == s.running[id := s.epoch + 1] - {id};
  }

  /**
   A half-open breaker has no time limit: once its slots are taken it refuses every request, however
   much time passes, until one of the admitted requests reports.
  */
  lemma {:induction false} FullHalfOpenWaitsForReports(c: Config, es: seq<Event>, more: seq<Event>)
    requires Legal(c, es + more) && Run(c, es).cb.state.HalfOpen? && Run(c, es).cb.halfOpenReqs >= c.halfOpenMaxReqs
    requires forall i | 0 <= i < |more| :: more[i].Ask?
    ensures Run(c, es + more).cb == Run(c, es).cb && Run(c, es + more).running == Run(c, es).running
  {
    if more == [] {
      assert es + more == es;
    } else {
      var n := |more| - 1;
      assert (es + more)[..|es| + n] == es + more[..n];
      FullHalfOpenWaitsForReports(c, es, more[..n]);
    }
  }

  lemma {:induction false} InvAlways(c: Config, es: seq<Event>)
    requires ValidConfig(c) && Legal(c, es)
    ensures Inv(c, Run(c, es))
  {
    if |es| > 0 {
      var s, e := Run(c, es[..|es| - 1]), es[|es| - 1];
      InvAlways(c, es[..|es| - 1]);
      if e.Ask? { AskKeepsInv(c, s, e); } else { ReportKeepsInv(c, s, e); }
    }
  }

  /**
   In every half-open state of every run, the probes in flight exceed the counter by at most the
   stale reports taken in this episode; with none they equal it, and never exceed the limit.
   */
  lemma {:induction false} ProbeAccounting(c: Config, es: seq<Event>)
    requires ValidConfig(c) && Legal(c, es) && Run(c, es).cb.state.HalfOpen?
    ensures var s := Run(c, es);
      && |Probes(s)| <= c.halfOpenMaxReqs + s.stale
      && s.stale <= c.successThreshold - 1
      && (s.stale == 0 ==> |Probes(s)| == s.cb.halfOpenReqs <= c.halfOpenMaxReqs)
  {
    InvAlways(c, es);
  }

  // ---------------------------------------------------------------- the bound is attained

  ghost function Ids(lo: nat, hi: nat): (r: set<nat>)
    ensures forall i :: i in r <==> lo <= i < hi
  {
    if hi <= lo then {} else Ids(lo, hi - 1) + {hi - 1}
  }

  /** Every id in the map was admitted in the given epoch. */
  ghost predicate AllFrom(m: map<nat, nat>, epoch: nat) {
    forall id | id in m :: m[id] == epoch
  }

  /** Requests first, first + 1, ..., last - 1 are admitted while the breaker is closed. */
  lemma {:induction false} FillClosed(c: Config, n: nat) returns (es: seq<Event>)
    requires ValidConfig(c)
    ensures Legal(c, es)
    ensures Run(c, es).cb == NewBreaker(0) && Run(c, es).clock == 0 && Run(c, es).epoch == Run(c, es).stale == 0
    ensures Run(c, es).running.Keys == Ids(0, n) && AllFrom(Run(c, es).running, 0)
  {
    es := [];
    var k := 0;
    while k < n
      invariant k <= n && Legal(c, es)
      invariant Run(c, es).cb == NewBreaker(0) && Run(c, es).clock == 0 && Run(c, es).epoch == Run(c, es).stale == 0
      invariant Run(c, es).running.Keys == Ids(0, k) && AllFrom(Run(c, es).running, 0)
    {
      Extend(c, es, Ask(k, 0, 0));
      assert Ids(0, k) + {k} == Ids(0, k + 1);
      es, k := es + [Ask(k, 0, 0)], k + 1;
    }
  }

  /** The last failureThreshold of n requests fail, which opens the breaker. */
  lemma {:induction false} TripOpen(c: Config, keep: nat) returns (es: seq<Event>)
    requires ValidConfig(c)
    ensures Legal(c, es)
    ensures Run(c, es).cb.state.Open? && Run(c, es).cb.lastStateTime == 0
    ensures Run(c, es).clock == 0 && Run(c, es).epoch == 1
    ensures Run(c, es).running.Keys == Ids(0, keep) && AllFrom(Run(c, es).running, 0)
  {
    var n: nat := keep + c.failureThreshold;
    es := FillClosed(c, n);
    var k: nat := n;
    while k > keep
      invariant keep <= k <= n && Legal(c, es)
      invariant Run(c, es).clock == 0
      invariant Run(c, es).running.Keys == Ids(0, k) && AllFrom(Run(c, es).running, 0)
      invariant k > keep ==>
        Run(c, es).cb.state.Closed? && Run(c, es).cb.failureCount == n - k && Run(c, es).epoch == 0
      invariant k == keep ==>
        Run(c, es).cb.state.Open? && Run(c, es).cb.lastStateTime == 0 && Run(c, es).epoch == 1
    {
      var e := Report(k - 1, false, 0, 0);
      Extend(c, es, e);
      assert Ids(0, k) - {k - 1} == Ids(0, k - 1);
      es, k := es + [e], k - 1;
    }
  }

  /** k probes of epoch 2 in flight, beside requests 0, ..., keep - 1 of epoch 0. */
  ghost predicate Probing(s: Observed, k: int, keep: nat, next: nat) {
    && s.cb.state.HalfOpen? && s.cb.successCount == 0
    && s.cb.halfOpenReqs == |Probes(s)| == k
    && s.epoch == 2 && s.stale == 0
    && keep <= next && (forall id | id in s.running :: id < next)
    && (forall id: nat | id < keep :: id in s.running && s.running[id] == 0)
  }

  /** After the cool-down the first admission starts the half-open episode. */
  lemma {:induction false} FirstProbe(c: Config, keep: nat) returns (es: seq<Event>)
    requires ValidConfig(c)
    ensures Legal(c, es) && Probing(Run(c, es), 1, keep, keep + 1)
  {
    es := TripOpen(c, keep);
    var s, e := Run(c, es), Ask(keep, c.openDuration, c.openDuration);
    assert forall id: nat | id < keep :: id in Ids(0, keep) && id in s.running;
    Extend(c, es, e);
    assert Probes(Step(c, s, e)) == {keep};
    es := es + [e];
  }

  lemma NextProbe(c: Config, s: Observed, e: Event, k: int, keep: nat, next: nat)
    requires Probing(s, k, keep, next) && k < c.halfOpenMaxReqs
    requires e.Ask? && e.id == next
    ensures Probing(Step(c, s, e), k + 1, keep, next + 1)
  {
    assert Probes(Step(c, s, e)) == Probes(s) + {next};
  }

  /** The breaker fills up with halfOpenMaxReqs probes. */
  lemma {:induction false} FillHalfOpen(c: Config, keep: nat) returns (es: seq<Event>, next: nat)
    requires ValidConfig(c)
    ensures Legal(c, es) && Probing(Run(c, es), c.halfOpenMaxReqs, keep, next)
  {
    es := FirstProbe(c, keep);
    next := keep + 1;
    var k := 1;
    while k < c.halfOpenMaxReqs
      invariant 1 <= k <= c.halfOpenMaxReqs
      invariant Legal(c, es) && Probing(Run(c, es), k, keep, next)
    {
      var s := Run(c, es);
      var e := Ask(next, s.clock, s.clock);
      Extend(c, es, e);
      NextProbe(c, s, e, k, keep, next);
      es, next, k := es + [e], next + 1, k + 1;
    }
  }

  /**
   The bound is attained: every configuration has a run that puts halfOpenMaxReqs +
   successThreshold - 1 probes in flight at once.
   */
  lemma {:induction false} ProbeBoundIsAttained(c: Config) returns (es: seq<Event>)
    requires ValidConfig(c)
    ensures Legal(c, es) && Run(c, es).cb.state.HalfOpen?
    ensures |Probes(Run(c, es))| == c.halfOpenMaxReqs + c.successThreshold - 1
  {
    hide Step, Probes, Run;
    var spare: nat := c.successThreshold - 1;
    var next: nat;
    es, next := FillHalfOpen(c, spare);
    var j := 0;
    while j < spare
      invariant j <= spare <= next && Legal(c, es)
      invariant Run(c, es).cb.state.HalfOpen? && Run(c, es).cb.successCount == j
      invariant Run(c, es).cb.halfOpenReqs == c.halfOpenMaxReqs
      invariant |Probes(Run(c, es))| == c.halfOpenMaxReqs + j
      invariant Run(c, es).epoch == 2
      invariant forall id | id in Run(c, es).running :: id < next
      invariant forall id: nat | j <= id < spare :: id in Run(c, es).running && Run(c, es).running[id] == 0
    {
      var s := Run(c, es);
      var late, probe := Report(j, true, s.clock, s.clock), Ask(next, s.clock, s.clock);
      Extend(c, es, late);
      LateReportFreesASlot(c, s, late);
      Extend(c, es + [late], probe);
      ProbeTakesTheSlot(c, Step(c, s, late), probe);
      es, next, j := es + [late] + [probe], next + 1, j + 1;
    }
  }

  lemma LateReportFreesASlot(c: Config, s: Observed, e: Event)
    requires ValidConfig(c) && s.cb.state.HalfOpen? && e.Report? && e.ok && s.cb.successCount + 1 < c.successThreshold
    requires e.id in s.running && s.running[e.id] != s.epoch && s.cb.halfOpenReqs == c.halfOpenMaxReqs
    ensures var s' := Step(c, s, e);
      && s'.cb.state.HalfOpen? && s'.cb.successCount == s.cb.successCount + 1 && s'.cb.halfOpenReqs == c.halfOpenMaxReqs - 1
      && Probes(s') == Probes(s) && s'.epoch == s.epoch && s'.running == s.running - {e.id} && s'.clock == e.later
  {
    assert Probes(Step(c, s, e)) == Probes(s);
  }

  lemma ProbeTakesTheSlot(c: Config, s: Observed, e: Event)
    requires ValidConfig(c) && s.cb.state.HalfOpen? && e.Ask? && s.cb.halfOpenReqs == c.halfOpenMaxReqs - 1
    requires e.id !in s.running
    ensures var s' := Step(c, s, e);
      && s'.cb.state.HalfOpen? && s'.cb.successCount == s.cb.successCount && s'.cb.halfOpenReqs == c.halfOpenMaxReqs
      && Probes(s') == Probes(s) + {e.id} && |Probes(s')| == |Probes(s)| + 1
      && s'.epoch == s.epoch && s'.running == s.running[e.id := s.epoch]
  {
    assert Probes(Step(c, s, e)) == Probes(s) + {e.id};
    assert e.id !in Probes(s);
  }

  /** The documented limit on concurrent half-open probes, on every reachable state. */
  ghost predicate LimitHolds(c: Config) {
    forall es: seq<Event> :: Legal(c, es) && Run(c, es).cb.state.HalfOpen? ==>
      |Probes(Run(c, es))| <= c.halfOpenMaxReqs
  }

  /** It holds exactly for the configurations in which a single success closes the breaker. */
  lemma {:induction false} LimitHoldsIffOneSuccessCloses(c: Config)
    requires ValidConfig(c)
    ensures LimitHolds(c) <==> c.successThreshold == 1
  {
    if c.successThreshold == 1 {
      forall es: seq<Event> | Legal(c, es) && Run(c, es).cb.state.HalfOpen?
        ensures |Probes(Run(c, es))| <= c.halfOpenMaxReqs
      {
        ProbeAccounting(c, es);
      }
    } else {
      var es := ProbeBoundIsAttained(c);
      assert |Probes(Run(c, es))| > c.halfOpenMaxReqs;
    }
  }

  /**
   By how much the counter lags in the current half-open episode: stale reports that found it above
   zero took a slot that was not theirs, own reports that found it at zero could not give theirs back.
  */
  ghost function Lag(c: Config, es: seq<Event>): int {
    if |es| == 0 then 0
    else
      var s, e := Run(c, es[..|es| - 1]), es[|es| - 1];
      var s' := Step(c, s, e);
      if s'.epoch != s.epoch || !s'.cb.state.HalfOpen? then 0
      else Lag(c, es[..|es| - 1]) + LagOf(s, e)
  }

  ghost function LagOf(s: Observed, e: Event): int {
    if e.Ask? || e.id !in s.running then 0
    else if s.running[e.id] != s.epoch then (if s.cb.halfOpenReqs > 0 then 1 else 0)
    else (if s.cb.halfOpenReqs > 0 then 0 else -1)
  }

  /** The exact account: the probes in flight are the counter plus that lag, so they agree exactly when it is zero. */
  lemma {:induction false} ProbesAreCounterPlusLag(c: Config, es: seq<Event>)
    requires ValidConfig(c) && Legal(c, es) && Run(c, es).cb.state.HalfOpen?
    ensures |Probes(Run(c, es))| == Run(c, es).cb.halfOpenReqs + Lag(c, es)
    ensures |Probes(Run(c, es))| == Run(c, es).cb.halfOpenReqs <==> Lag(c, es) == 0
  {
    var n := |es| - 1;
    var s, e := Run(c, es[..n]), es[n];
    InvAlways(c, es[..n]);
    if Step(c, s, e).epoch == s.epoch {
      ProbesAreCounterPlusLag(c, es[..n]);
    }
    LagStep(c, s, e);
  }

  lemma LagStep(c: Config, s: Observed, e: Event)
    requires ValidConfig(c) && Inv(c, s) && Enabled(s, e) && Step(c, s, e).cb.state.HalfOpen?
    ensures var s' := Step(c, s, e);
      if s'.epoch == s.epoch then
        s.cb.state.HalfOpen? && |Probes(s')| - s'.cb.halfOpenReqs == |Probes(s)| - s.cb.halfOpenReqs + LagOf(s, e)
      else |Probes(s')| == s'.cb.halfOpenReqs
  {
    hide Probes;
    if e.Report? { ReportProbes(c, s, e); } else { AskProbes(c, s, e); }
  }

  lemma AskProbes(c: Config, s: Observed, e: Event)
    requires Enabled(s, e) && e.Ask? && forall id | id in s.running :: s.running[id] <= s.epoch
    ensures var s' := Step(c, s, e);
      |Probes(s')| == if s'.epoch != s.epoch then 1 else if Admits(c, s.cb, e.now) then |Probes(s)| + 1 else |Probes(s)|
  {
    hide Probes;
    AdmissionMakesProbe(s, e.id, Step(c, s, e));
  }

  lemma AdmissionMakesProbe(s: Observed, id: nat, s': Observed)
    requires id !in s.running && forall i | i in s.running :: s.running[i] <= s.epoch
    ensures s'.epoch == s.epoch + 1 && s'.running == s.running[id := s'.epoch] ==> |Probes(s')| == 1
    ensures s'.epoch == s.epoch && s'.running == s.running[id := s'.epoch] ==> |Probes(s')| == |Probes(s)| + 1
    ensures s'.epoch == s.epoch && s'.running == s.running ==> Probes(s') == Probes(s)
  {
    if s'.running == s.running[id := s'.epoch] {
      if s'.epoch == s.epoch + 1 { assert Probes(s') == {id}; }
      if s'.epoch == s.epoch { assert Probes(s') == Probes(s) + {id} && id !in Probes(s); }
    }
  }

  /** Stale reports are needed for a lag but do not always cause one: with none in flight they change nothing. */
  lemma {:induction false} StaleReportCanGoUnnoticed(c: Config) returns (es: seq<Event>)
    requires ValidConfig(c) && c.successThreshold >= 3
    ensures Legal(c, es) && Run(c, es).cb.state.HalfOpen? && Run(c, es).stale == 1
    ensures |Probes(Run(c, es))| == Run(c, es).cb.halfOpenReqs == 0
  {
    es := FirstProbe(c, 1);
    var s := Run(c, es);
    var p :| p in Probes(s);
    var own, late := Report(p, true, s.clock, s.clock), Report(0, true, s.clock, s.clock);
    Extend(c, es, own);
    ReportProbes(c, s, own);
    Extend(c, es + [own], late);
    ReportProbes(c, Step(c, s, own), late);
    es := es + [own] + [late];
  }

  // ---------------------------------------------------------------- what the counters mean

  /** The length of the run of failures that ends the record, ignoring admissions. */
  function FailureRun(es: seq<Event>): (n: nat) {
    if |es| == 0 then 0
    else match es[|es| - 1]
      case Ask(_, _, _) => FailureRun(es[..|es| - 1])
      case Report(_, ok, _, _) => if ok then 0 else FailureRun(es[..|es| - 1]) + 1
  }

  /** In Closed, failureCount is the trailing run of failures and stays below the threshold. */
  lemma {:induction false} ClosedCountsTrailingFailures(c: Config, es: seq<Event>)
    requires ValidConfig(c) && Legal(c, es) && Run(c, es).cb.state.Closed?
    ensures Run(c, es).cb.failureCount == FailureRun(es) < c.failureThreshold
  {
    InvAlways(c, es);
    if |es| > 0 {
      var before := es[..|es| - 1];
      if Run(c, before).cb.state.Closed? {
        ClosedCountsTrailingFailures(c, before);
      }
    }
  }

  /** A closed breaker opens exactly on the failure that completes a run of failureThreshold. */
  lemma {:induction false} OpensExactlyAtThreshold(c: Config, es: seq<Event>, e: Event)
    requires ValidConfig(c) && Legal(c, es) && Enabled(Run(c, es), e) && Run(c, es).cb.state.Closed?
    ensures !Step(c, Run(c, es), e).cb.state.HalfOpen?
    ensures Step(c, Run(c, es), e).cb.state.Open?
       <==> e.Report? && !e.ok && FailureRun(es + [e]) == c.failureThreshold
  {
    ClosedCountsTrailingFailures(c, es);
    assert (es + [e])[..|es|] == es;
  }

  /** The events since the breaker last changed state. */
  function Episode(c: Config, es: seq<Event>): seq<Event> {
    if |es| == 0 then []
    else if Run(c, es).epoch != Run(c, es[..|es| - 1]).epoch then []
    else Episode(c, es[..|es| - 1]) + [es[|es| - 1]]
  }

  function Reports(es: seq<Event>, ok: bool): (n: nat) {
    if |es| == 0 then 0
    else Reports(es[..|es| - 1], ok) + (if es[|es| - 1].Report? && es[|es| - 1].ok == ok then 1 else 0)
  }

  lemma ReportsAppend(es: seq<Event>, e: Event, ok: bool)
    ensures Reports(es + [e], ok) == Reports(es, ok) + (if e.Report? && e.ok == ok then 1 else 0)
  {
    assert (es + [e])[..|es|] == es;
  }

  lemma {:induction false} EpisodeHasNoFailure(c: Config, es: seq<Event>)
    requires ValidConfig(c) && Legal(c, es) && Run(c, es).cb.state.HalfOpen?
    ensures Reports(Episode(c, es), true) == Run(c, es).cb.successCount
    ensures Reports(Episode(c, es), false) == 0
  {
    if |es| > 0 {
      var before, e := es[..|es| - 1], es[|es| - 1];
      if Run(c, es).epoch == Run(c, before).epoch {
        EpisodeHasNoFailure(c, before);
        ReportsAppend(Episode(c, before), e, true);
        ReportsAppend(Episode(c, before), e, false);
      }
    }
  }

  /** A half-open episode that ends in Closed recorded successThreshold successes and no failure. */
  lemma {:induction false} ClosingEpisode(c: Config, es: seq<Event>, e: Event)
    requires ValidConfig(c) && Legal(c, es) && Enabled(Run(c, es), e)
    requires Run(c, es).cb.state.HalfOpen? && Step(c, Run(c, es), e).cb.state.Closed?
    ensures Reports(Episode(c, es) + [e], true) == c.successThreshold
    ensures Reports(Episode(c, es) + [e], false) == 0
  {
    InvAlways(c, es);
    EpisodeHasNoFailure(c, es);
    ReportsAppend(Episode(c, es), e, true);
    ReportsAppend(Episode(c, es), e, false);
  }

  // ---------------------------------------------------------------- the cool-down

  lemma {:induction false} CoolingDown(c: Config, es: seq<Event>, i: nat, k: nat)
    requires ValidConfig(c) && Legal(c, es) && i < k <= |es|
    requires Run(c, es[..i + 1]).cb.state.Open?
    ensures var tripped, present := Run(c, es[..i + 1]), Run(c, es[..k]);
      || (present.cb.state.Open? && present.cb.lastStateTime == tripped.cb.lastStateTime)
      || present.clock >= tripped.cb.lastStateTime + c.openDuration
  {
    if k > i + 1 {
      CoolingDown(c, es, i, k - 1);
      LegalPrefix(c, es, k);
      assert es[..k][..k - 1] == es[..k - 1];
    }
  }

  /** Event i takes the breaker into Open. */
  ghost predicate OpensAt(c: Config, es: seq<Event>, i: nat)
    requires i < |es|
  {
    !Run(c, es[..i]).cb.state.Open? && Run(c, es[..i + 1]).cb.state.Open?
  }

  ghost predicate AdmitsAt(c: Config, es: seq<Event>, j: nat)
    requires j < |es|
  {
    es[j].Ask? && Admits(c, Run(c, es[..j]).cb, es[j].now)
  }

  lemma OpeningIsTimed(c: Config, es: seq<Event>, i: nat)
    requires Legal(c, es) && i < |es| && OpensAt(c, es, i)
    ensures Run(c, es[..i + 1]).cb.lastStateTime == es[i].later
  {
    LegalPrefix(c, es, i + 1);
    assert es[..i + 1][..i] == es[..i];
  }

  /** No request is admitted within openDuration of any event that opened the breaker, however long the run. */
  lemma {:induction false} NoAdmissionDuringCoolDown(c: Config, es: seq<Event>, i: nat, j: nat)
    requires ValidConfig(c) && Legal(c, es) && i < j < |es|
    requires OpensAt(c, es, i) && AdmitsAt(c, es, j)
    ensures es[j].now >= es[i].later + c.openDuration
  {
    hide Admits, Step;
    OpeningIsTimed(c, es, i);
    CoolingDown(c, es, i, j);
    LegalPrefix(c, es, j + 1);
    assert es[..j + 1][..j] == es[..j];
    if Run(c, es[..j]).cb.state.Open? { AdmissionIsTimed(c, Run(c, es[..j]), es[j]); }
  }

  lemma AdmissionIsTimed(c: Config, s: Observed, e: Event)
    requires e.Ask? && s.cb.state.Open?
    ensures Admits(c, s.cb, e.now) <==> e.now >= s.cb.lastStateTime + c.openDuration
    ensures !Admits(c, s.cb, e.now) ==> Step(c, s, e).cb == s.cb
  {
  }

  lemma ReportLeavesOpen(c: Config, s: Observed, e: Event)
    requires e.Report? && s.cb.state.Open?
    ensures Step(c, s, e).cb.state.Open? && Step(c, s, e).cb.lastStateTime == s.cb.lastStateTime
  {
  }

  lemma {:induction false} StaysOpen(c: Config, es: seq<Event>, i: nat, k: nat)
    requires Legal(c, es) && i < k <= |es| && OpensAt(c, es, i)
    requires forall m | i < m < k && es[m].Ask? :: es[m].now < es[i].later + c.openDuration
    ensures Run(c, es[..k]).cb.state.Open? && Run(c, es[..k]).cb.lastStateTime == es[i].later
  {
    hide Step, Admits;
    if k == i + 1 {
      OpeningIsTimed(c, es, i);
    } else {
      StaysOpen(c, es, i, k - 1);
      assert es[..k][..k - 1] == es[..k - 1];
      var s, e := Run(c, es[..k - 1]), es[k - 1];
      if e.Ask? { AdmissionIsTimed(c, s, e); } else { ReportLeavesOpen(c, s, e); }
    }
  }

  /** And the first request to ask at or after that instant is admitted. */
  lemma {:induction false} CoolDownEndsIff(c: Config, es: seq<Event>, i: nat, j: nat)
    requires Legal(c, es) && i < j < |es| && OpensAt(c, es, i) && es[j].Ask?
    requires forall m | i < m < j && es[m].Ask? :: es[m].now < es[i].later + c.openDuration
    ensures AdmitsAt(c, es, j) <==> es[j].now >= es[i].later + c.openDuration
  {
    StaysOpen(c, es, i, j);
    AdmissionIsTimed(c, Run(c, es[..j]), es[j]);
  }

  // ---------------------------------------------------------------- all transitions, by the record

  /** The slots of an episode: each request let in takes one while there is one, each report returns one. */
  function Slots(limit: int, es: seq<Event>): int {
    if |es| == 0 then 1
    else
      var n := Slots(limit, es[..|es| - 1]);
      if es[|es| - 1].Ask? then (if n < limit then n + 1 else n) else if n > 0 then n - 1 else 0
  }

  lemma SlotsAppend(limit: int, es: seq<Event>, e: Event)
    ensures var n := Slots(limit, es);
      Slots(limit, es + [e]) == if e.Ask? then (if n < limit then n + 1 else n) else if n > 0 then n - 1 else 0
  {
    assert (es + [e])[..|es|] == es;
  }

  /** The counter of a half-open episode is its slots in use: the request that began it holds the first. */
  lemma {:induction false} CounterIsSlots(c: Config, es: seq<Event>)
    requires ValidConfig(c) && Legal(c, es) && Run(c, es).cb.state.HalfOpen?
    ensures Run(c, es).cb.halfOpenReqs == Slots(c.halfOpenMaxReqs, Episode(c, es))
  {
    var before, e := es[..|es| - 1], es[|es| - 1];
    InvAlways(c, before);
    if Run(c, es).epoch == Run(c, before).epoch {
      CounterIsSlots(c, before);
      SlotsAppend(c.halfOpenMaxReqs, Episode(c, before), e);
    }
  }

  /** The moment of the last change of state. */
  function ChangedAt(c: Config, es: seq<Event>): int {
    if |es| == 0 then 0
    else if Run(c, es).cb.state != Run(c, es[..|es| - 1]).cb.state then es[|es| - 1].later
    else ChangedAt(c, es[..|es| - 1])
  }

  lemma {:induction false} ChangesAreTimed(c: Config, es: seq<Event>)
    ensures Run(c, es).cb.lastStateTime == ChangedAt(c, es)
  {
    if |es| > 0 { ChangesAreTimed(c, es[..|es| - 1]); }
  }

  /** Over every run: a request is admitted exactly when the record of events says so. */
  lemma {:induction false} AdmittedIff(c: Config, es: seq<Event>, e: Event)
    requires ValidConfig(c) && Legal(c, es) && e.Ask?
    ensures Admits(c, Run(c, es).cb, e.now) <==>
      match Run(c, es).cb.state
      case Closed => true
      case Open => e.now >= ChangedAt(c, es) + c.openDuration
      case HalfOpen => Slots(c.halfOpenMaxReqs, Episode(c, es)) < c.halfOpenMaxReqs
  {
    ChangesAreTimed(c, es);
    if Run(c, es).cb.state.HalfOpen? { CounterIsSlots(c, es); }
  }

  /** And the next state follows from the record alone. */
  lemma {:induction false} NextStateIff(c: Config, es: seq<Event>, e: Event)
    requires ValidConfig(c) && Legal(c, es) && Enabled(Run(c, es), e)
    ensures Step(c, Run(c, es), e).cb.state ==
      match Run(c, es).cb.state
      case Closed => if e.Report? && !e.ok && FailureRun(es + [e]) == c.failureThreshold then Open else Closed
      case Open => if e.Ask? && e.now >= ChangedAt(c, es) + c.openDuration then HalfOpen else Open
      case HalfOpen =>
        if e.Report? && !e.ok then Open
        else if e.Report? && Reports(Episode(c, es) + [e], true) == c.successThreshold then Closed
        else HalfOpen
  {
    var s := Run(c, es);
    InvAlways(c, es);
    ChangesAreTimed(c, es);
    if s.cb.state.Closed? { OpensExactlyAtThreshold(c, es, e); }
    if s.cb.state.HalfOpen? {
      EpisodeHasNoFailure(c, es);
      ReportsAppend(Episode(c, es), e, true);
    }
  }
}
