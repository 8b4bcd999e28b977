/**
 When the lifecycle of framework.go starts a component: Start and Stop alternate for each component
 except after a Stop whose callback failed, and Start goes through without a completed Init exactly
 when an earlier stop pass left something up.
*/
module FrameworkStarts {
  import opened Framework

  /** The last Start of the component that succeeded has not been followed by any Stop call. */
  ghost predicate Untouched(log: seq<Call>, n: Name) {
    |log| > 0 &&
    match log[|log| - 1]
    case CompStart(m, ok) => (m == n && ok) || Untouched(log[..|log| - 1], n)
    case CompStop(m, _) => m != n && Untouched(log[..|log| - 1], n)
    case _ => Untouched(log[..|log| - 1], n)
  }

  /** ... or by none that succeeded: the component is still up. */
  ghost predicate StillUp(log: seq<Call>, n: Name) {
    |log| > 0 &&
    match log[|log| - 1]
    case CompStart(m, ok) => (m == n && ok) || StillUp(log[..|log| - 1], n)
    case CompStop(m, ok) => !(m == n && ok) && StillUp(log[..|log| - 1], n)
    case _ => StillUp(log[..|log| - 1], n)
  }

  /** It is still up because a Stop of it has failed since it was last started. */
  ghost predicate StopFailed(log: seq<Call>, n: Name) {
    |log| > 0 &&
    match log[|log| - 1]
    case CompStart(m, ok) => !(m == n && ok) && StopFailed(log[..|log| - 1], n)
    case CompStop(m, ok) => if m == n then !ok && StillUp(log[..|log| - 1], n) else StopFailed(log[..|log| - 1], n)
    case _ => StopFailed(log[..|log| - 1], n)
  }

  lemma {:induction false} StillUpCases(log: seq<Call>, n: Name)
    ensures StillUp(log, n) <==> Untouched(log, n) || StopFailed(log, n)
  {
    if |log| > 0 { StillUpCases(log[..|log| - 1], n); }
  }

  /** Every Start call finds its component stopped, or touched by a Stop, since it was last started. */
  ghost predicate Alternates(log: seq<Call>) {
    |log| > 0 ==>
      var before, call := log[..|log| - 1], log[|log| - 1];
      Alternates(before) && (call.CompStart? ==> !Untouched(before, call.name))
  }

  ghost predicate Calm(log: seq<Call>, up: set<Name>) {
    Alternates(log) && forall n | Untouched(log, n) :: n in up
  }

  lemma CalmStep(log: seq<Call>, up: set<Name>, call: Call)
    requires Calm(log, up) && (call.CompStart? ==> call.name !in up)
    ensures Calm(log + [call],
      if call.CompStart? && call.ok then up + {call.name} else if call.CompStop? then up - {call.name} else up)
  {
    assert (log + [call])[..|log|] == log;
  }

  lemma CalmWithin(log: seq<Call>, up: set<Name>, more: set<Name>)
    requires Calm(log, up) && up <= more
    ensures Calm(log, more)
  {
  }

  lemma {:induction false} StopAllCalm(names: seq<Name>, ok: set<Name>, log: seq<Call>, up: set<Name>)
    requires Calm(log, up)
    ensures Calm(StopAll(names, ok, log), up - ToSet(names))
    decreases |names|
  {
    hide Calm;
    if |names| > 0 {
      var init, last := names[..|names| - 1], names[|names| - 1];
      CalmStep(log, up, CompStop(last, last in ok));
      StopAllCalm(init, ok, log + [CompStop(last, last in ok)], up - {last});
      assert names == init + [last];
      assert up - {last} - ToSet(init) == up - ToSet(names);
    } else {
      assert up - ToSet(names) == up;
    }
  }

  lemma {:induction false} ClosePartsCalm(todo: seq<Part>, used: set<Part>, ok: set<Part>, log: seq<Call>, up: set<Name>)
    requires Calm(log, up)
    ensures Calm(CloseParts(todo, used, ok, log), up)
    decreases |todo|
  {
    hide Calm;
    if |todo| > 0 {
      CalmStep(log, up, PartClose(todo[0], todo[0] in ok));
      ClosePartsCalm(todo[1..], used, ok, if todo[0] in used then log + [PartClose(todo[0], todo[0] in ok)] else log, up);
    }
  }

  lemma {:induction false} OpenPartsCalm(todo: seq<Part>, env: InitEnv, parts: set<Part>, log: seq<Call>, up: set<Name>)
    requires Calm(log, up)
    ensures Calm(OpenParts(todo, env, parts, log).log, up)
    decreases |todo|
  {
    hide Calm;
    if |todo| > 0 {
      CalmStep(log, up, PartOpen(todo[0], todo[0] in env.openOk));
      if todo[0] !in env.configured {
        OpenPartsCalm(todo[1..], env, parts, log, up);
      } else if todo[0] in env.openOk {
        OpenPartsCalm(todo[1..], env, parts + {todo[0]}, log + [PartOpen(todo[0], true)], up);
      }
    }
  }

  lemma {:induction false} InitComponentsCalm(names: seq<Name>, env: InitEnv, done: seq<Name>, log: seq<Call>, up: set<Name>)
    requires Calm(log, up)
    ensures Calm(InitComponents(names, env, done, log).log, up)
    decreases |names|
  {
    hide Calm;
    if |names| > 0 {
      CalmStep(log, up, CompInit(names[0], names[0] in env.initOk));
      if names[0] !in env.enabled {
        InitComponentsCalm(names[1..], env, done, log, up);
      } else if names[0] in env.initOk {
        InitComponentsCalm(names[1..], env, done + [names[0]], log + [CompInit(names[0], true)], up);
      }
    }
  }

  lemma {:induction false} StartServersCalm(todo: seq<Part>, parts: set<Part>, env: StartEnv, log: seq<Call>, up: set<Name>)
    requires Calm(log, up)
    ensures Calm(StartServers(todo, parts, env, log).log, up)
    decreases |todo|
  {
    hide Calm;
    if |todo| > 0 {
      CalmStep(log, up, PartStart(todo[0], todo[0] in env.serverOk));
      if todo[0] !in parts {
        StartServersCalm(todo[1..], parts, env, log, up);
      } else if todo[0] in env.serverOk {
        StartServersCalm(todo[1..], parts, env, log + [PartStart(todo[0], true)], up);
      }
    }
  }

  lemma {:induction false} StartComponentsCalm(names: seq<Name>, env: StartEnv, log: seq<Call>, up: set<Name>)
    requires Calm(log, up) && Distinct(names) && ToSet(names) !! up
    ensures Calm(StartComponents(names, env, log).log, up + ToSet(names))
    decreases |names|
  {
    hide Calm;
    if |names| > 0 {
      var n, rest := names[0], names[1..];
      assert ToSet(names) == ToSet(rest) + {n} && n !in rest;
      CalmStep(log, up, CompStart(n, n in env.startOk));
      if n !in env.enabled {
        StartComponentsCalm(rest, env, log, up);
        CalmWithin(StartComponents(names, env, log).log, up + ToSet(rest), up + ToSet(names));
      } else if n in env.startOk {
        StartComponentsCalm(rest, env, log + [CompStart(n, true)], up + {n});
        assert up + {n} + ToSet(rest) == up + ToSet(names);
      } else {
        CalmWithin(log + [CompStart(n, false)], up, up + ToSet(names));
      }
    } else {
      assert up + ToSet(names) == up;
    }
  }

  lemma StopPassCalm(f: State, env: StopEnv, up: set<Name>)
    requires Calm(f.log, up) && up <= ToSet(f.inited) && !f.stopped && Running(f)
    ensures Calm(StopPass(f, env).0.log, {}) && !StopPass(f, env).0.started
  {
    hide Calm;
    StopAllCalm(f.inited, env.stopOk, f.log, up);
    assert up - ToSet(f.inited) == {};
    ClosePartsCalm(CLOSE_ORDER, f.parts, env.closeOk, StopAll(f.inited, env.stopOk, f.log), {});
  }

  ghost function UpNow(f: State): set<Name> {
    if f.started then ToSet(f.inited) else {}
  }

  lemma StartCalm(f: State, env: StartEnv)
    requires Inv(f) && Calm(f.log, UpNow(f))
    ensures Calm(Start(f, env).0.log, UpNow(Start(f, env).0))
  {
    hide Calm, Ledger, StopPass, StartServers, StartComponents;
    if f.initialized && !f.started {
      var s := StartServers(SERVERS, f.parts, env, f.log);
      StartServersCalm(SERVERS, f.parts, env, f.log, {});
      if !s.ok {
        StopPassCalm(f.(log := s.log), env.rollback, {});
      } else {
        var c := StartComponents(f.inited, env, s.log);
        FilterDistinct(f.order, ToSet(f.inited));
        StartComponentsCalm(f.inited, env, s.log, {});
        assert {} + ToSet(f.inited) == ToSet(f.inited);
        if !c.ok { StopPassCalm(f.(log := c.log), env.rollback, ToSet(f.inited)); }
      }
    }
  }

  lemma InitCalm(f: State, env: InitEnv)
    requires Inv(f) && Calm(f.log, UpNow(f))
    ensures Calm(Init(f, env).0.log, UpNow(Init(f, env).0))
  {
    hide Calm, Ledger, StopPass, OpenParts, InitComponents;
    if !f.initialized {
      var f0 := f.(stopped := false, initializing := true);
      var p := OpenParts(OPEN_ORDER, env, f0.parts, f0.log);
      OpenPartsCalm(OPEN_ORDER, env, f0.parts, f0.log, {});
      var f1 := f0.(parts := p.parts, log := p.log);
      if !p.ok {
        StopPassCalm(f1, env.rollback, {});
      } else {
        var c := InitComponents(f.order, env, f1.inited, f1.log);
        InitComponentsCalm(f.order, env, f1.inited, f1.log, {});
        if !c.ok { StopPassCalm(f1.(inited := c.done, log := c.log), env.rollback, {}); }
      }
    }
  }

  lemma {:induction false} CalmAlways(es: seq<Event>)
    ensures Calm(Run(es).log, UpNow(Run(es)))
  {
    if |es| > 0 {
      hide Calm, Inv, Init, Start, StopPass;
      var f := Run(es[..|es| - 1]);
      CalmAlways(es[..|es| - 1]);
      InvAlways(es[..|es| - 1]);
      match es[|es| - 1]
      case DoRegister(name) =>
      case DoInit(env) => InitCalm(f, env);
      case DoStart(env) => StartCalm(f, env);
      case DoStop(env) => StopCalm(f, env);
    }
  }

  lemma StopCalm(f: State, env: StopEnv)
    requires Inv(f) && Calm(f.log, UpNow(f))
    ensures Calm(StopPass(f, env).0.log, UpNow(StopPass(f, env).0))
  {
    if !f.stopped && Running(f) { StopPassCalm(f, env, UpNow(f)); }
  }

  lemma {:induction false} AlternatesAt(log: seq<Call>, i: nat)
    requires Alternates(log) && i < |log| && log[i].CompStart?
    ensures !Untouched(log[..i], log[i].name)
  {
    if i < |log| - 1 {
      AlternatesAt(log[..|log| - 1], i);
      assert log[..|log| - 1][..i] == log[..i];
    }
  }

  /**
   In every run a component's Start is called while it is still up exactly when a Stop of it has
   failed since it was last started: alternation fails there and nowhere else.
  */
  lemma {:induction false} StartedTwiceIff(es: seq<Event>, i: nat)
    requires i < |Run(es).log| && Run(es).log[i].CompStart?
    ensures var before, n := Run(es).log[..i], Run(es).log[i].name;
      StillUp(before, n) <==> StopFailed(before, n)
  {
    CalmAlways(es);
    AlternatesAt(Run(es).log, i);
    StillUpCases(Run(es).log[..i], Run(es).log[i].name);
  }

  lemma {:induction false} NoParts(todo: seq<Part>, init: InitEnv, start: StartEnv, ok: set<Part>, log: seq<Call>)
    requires init.configured == {}
    ensures OpenParts(todo, init, {}, log) == Opened({}, log, true)
    ensures StartServers(todo, {}, start, log) == Started(log, true)
    ensures CloseParts(todo, {}, ok, log) == log
    decreases |todo|
  {
    if |todo| > 0 { NoParts(todo[1..], init, start, ok, log); }
  }

  lemma OneComponent(n: Name, init: InitEnv, start: StartEnv, log: seq<Call>)
    requires n in init.enabled && n in init.initOk && n in start.enabled && n in start.startOk
    ensures InitComponents([n], init, [], log) == Inited([n], log + [CompInit(n, true)], true)
    ensures StartComponents([n], start, log) == Started(log + [CompStart(n, true)], true)
    ensures StopAll([n], {}, log) == log + [CompStop(n, false)]
    ensures Failed([n], {}) == {n} && Filter([n], {n}) == [n]
  {
    assert [n][1..] == [] && [n][..0] == [] && [] + [n] == [n];
  }

  lemma StartedOnce(n: Name, init: InitEnv, start: StartEnv, f: State)
    requires init == InitEnv({}, {}, {n}, {n}, StopEnv({}, {})) && start == StartEnv({}, {n}, {n}, StopEnv({}, {}))
    requires f == FRESH.(order := [n])
    ensures Init(f, init) == (f.(inited := [n], initialized := true, log := [CompInit(n, true)]), true)
  {
    hide OpenParts, InitComponents, StopPass;
    NoParts(OPEN_ORDER, init, start, {}, []);
    OneComponent(n, init, start, []);
    assert [] + [CompInit(n, true)] == [CompInit(n, true)];
  }

  lemma StartOrFail(n: Name, init: InitEnv, start: StartEnv, f: State)
    requires init == InitEnv({}, {}, {n}, {n}, StopEnv({}, {})) && start == StartEnv({}, {n}, {n}, StopEnv({}, {}))
    requires f == State(f.order, [n], false, true, f.started, false, {}, f.log)
    ensures !f.started ==> Start(f, start) == (f.(started := true, log := f.log + [CompStart(n, true)]), true)
    ensures StopPass(f, StopEnv({}, {})) == (f.(started := false, log := f.log + [CompStop(n, false)]), false)
  {
    hide StartServers, StartComponents, CloseParts, StopAll, Failed, Filter;
    var none: set<Part> := {};
    assert none - none == none;
    NoParts(SERVERS, init, start, {}, f.log);
    NoParts(CLOSE_ORDER, init, start, {}, f.log + [CompStop(n, false)]);
    OneComponent(n, init, start, f.log);
  }

  /** And it does happen: Start, a Stop whose callback fails, Start again. */
  lemma {:induction false} StartedTwice(n: Name) returns (es: seq<Event>)
    requires n != ""
    ensures Run(es).log == [CompInit(n, true), CompStart(n, true), CompStop(n, false), CompStart(n, true)]
  {
    hide Init, Start, StopPass;
    var none := StopEnv({}, {});
    var init := InitEnv({}, {}, {n}, {n}, none);
    var start := StartEnv({}, {n}, {n}, none);
    var e1 := [DoRegister(n)];
    var e2 := e1 + [DoInit(init)];
    var e3 := e2 + [DoStart(start)];
    var e4 := e3 + [DoStop(none)];
    es := e4 + [DoStart(start)];
    assert e1[..0] == [] && e2[..1] == e1 && e3[..2] == e2 && e4[..3] == e3 && es[..4] == e4;
    assert Run([]) == FRESH;
    assert Run(e1) == FRESH.(order := [n]);
    StartedOnce(n, init, start, Run(e1));
    StartOrFail(n, init, start, Run(e2));
    StartOrFail(n, init, start, Run(e3));
    StartOrFail(n, init, start, Run(e4));
  }

  // ---------------------------------------------------------------- Start without a completed Init

  /** The event runs the stop pass: a Stop that is not a no-op, or the rollback of a failing Init or Start. */
  ghost predicate Passes(f: State, e: Event) {
    match e
    case DoRegister(_) => false
    case DoInit(env) => !f.initialized && !Init(f, env).1
    case DoStart(env) => f.initialized && !f.started && !Start(f, env).1
    case DoStop(_) => !f.stopped && Running(f)
  }

  /** An Init has returned success, and no stop pass has run since. */
  ghost predicate InitStands(es: seq<Event>) {
    |es| > 0 &&
      var f, e := Run(es[..|es| - 1]), es[|es| - 1];
      (e.DoInit? && Init(f, e.init).1) || (InitStands(es[..|es| - 1]) && !Passes(f, e))
  }

  /** By the ledger, a component or a built-in part is up. */
  ghost predicate SomethingUp(log: seq<Call>) {
    (exists n :: Balance(log, n) > 0) || (exists p :: PartBalance(log, p) > 0)
  }

  /** Start can return success, its callbacks permitting. */
  ghost predicate CanStart(f: State) {
    exists env :: Start(f, env).1
  }

  lemma CanStartIff(f: State)
    ensures CanStart(f) <==> f.initialized && !f.started
  {
    var env := StartEnv({GrpcServer, HttpServer}, {}, {}, StopEnv({}, {}));
    ServersStart(SERVERS, f.parts, env, f.log);
    NoneStart(f.inited, env, StartServers(SERVERS, f.parts, env, f.log).log);
    if f.initialized && !f.started { assert Start(f, env).1; }
  }

  lemma {:induction false} ServersStart(todo: seq<Part>, parts: set<Part>, env: StartEnv, log: seq<Call>)
    requires forall p | p in todo :: p in env.serverOk
    ensures StartServers(todo, parts, env, log).ok
    decreases |todo|
  {
    if |todo| > 0 {
      ServersStart(todo[1..], parts, env, if todo[0] in parts then log + [PartStart(todo[0], true)] else log);
    }
  }

  lemma {:induction false} NoneStart(names: seq<Name>, env: StartEnv, log: seq<Call>)
    requires env.enabled == {}
    ensures StartComponents(names, env, log).ok
    decreases |names|
  {
    if |names| > 0 { NoneStart(names[1..], env, log); }
  }

  predicate Holds(f: State) {
    f.inited != [] || f.parts != {}
  }

  /** After a stop pass the framework counts as initialised exactly while something is left. */
  lemma PassOutcome(f: State, env: StopEnv)
    requires !f.stopped && Running(f)
    ensures var g := StopPass(f, env).0; g.initialized <==> Holds(g)
  {
    var failed := Failed(f.inited, env.stopOk);
    FilterMembers(f.inited, failed);
    var kept := Filter(f.inited, failed);
    assert ToSet(f.inited) * failed == failed;
    if kept != [] { assert kept[0] in ToSet(kept); }
  }

  lemma HoldsIsUp(f: State)
    requires Inv(f)
    ensures SomethingUp(f.log) <==> Holds(f)
  {
    if f.inited != [] { assert f.inited[0] in ToSet(f.inited) && Balance(f.log, f.inited[0]) == 1; }
    if f.parts != {} {
      var p :| p in f.parts;
      assert PartBalance(f.log, p) == 1;
    }
  }

  lemma InitLeaves(f: State, env: InitEnv)
    requires !f.initialized
    ensures var r := Init(f, env); if r.1 then r.0.initialized else r.0.initialized <==> Holds(r.0)
  {
    hide StopPass, OpenParts, InitComponents;
    var p := OpenParts(OPEN_ORDER, env, f.parts, f.log);
    var f1 := f.(stopped := false, initializing := true, parts := p.parts, log := p.log);
    var c := InitComponents(f.order, env, f1.inited, f1.log);
    PassOutcome(f1, env.rollback);
    PassOutcome(f1.(inited := c.done, log := c.log), env.rollback);
  }

  lemma StartLeaves(f: State, env: StartEnv)
    requires f.initialized && !f.started && !f.stopped
    ensures var r := Start(f, env); if r.1 then r.0 == f.(started := true, log := r.0.log) else r.0.initialized <==> Holds(r.0)
  {
    hide StopPass, StartServers, StartComponents;
    var s := StartServers(SERVERS, f.parts, env, f.log);
    var c := StartComponents(f.inited, env, s.log);
    PassOutcome(f.(log := s.log), env.rollback);
    PassOutcome(f.(log := c.log), env.rollback);
  }

  /** Whatever happens, the flag says that an Init stands or that something is left. */
  lemma FlagStep(f: State, e: Event, stands: bool)
    requires Inv(f) && (stands ==> f.initialized) && (f.initialized ==> stands || Holds(f))
    ensures var g := Step(f, e);
      var stands' := (e.DoInit? && Init(f, e.init).1) || (stands && !Passes(f, e));
      (stands' ==> g.initialized) && (g.initialized ==> stands' || Holds(g))
  {
    hide StopPass, Init, Start;
    match e
    case DoRegister(_) =>
    case DoInit(env) => if f.initialized { InitRefused(f, env); } else { InitLeaves(f, env); }
    case DoStart(env) => if f.initialized && !f.started { StartLeaves(f, env); } else { StartRefused(f, env); }
    case DoStop(env) => if !f.stopped && Running(f) { PassOutcome(f, env); } else { StopRefused(f, env); }
  }

  lemma InitRefused(f: State, env: InitEnv)
    requires f.initialized
    ensures Init(f, env) == (f, false)
  {
  }

  lemma StartRefused(f: State, env: StartEnv)
    requires !f.initialized || f.started
    ensures Start(f, env) == (f, false)
  {
  }

  lemma StopRefused(f: State, env: StopEnv)
    requires f.stopped || !Running(f)
    ensures StopPass(f, env) == (f, true)
  {
  }

  lemma {:induction false} FlagAlways(es: seq<Event>)
    ensures var f := Run(es);
      (InitStands(es) ==> f.initialized) && (f.initialized ==> InitStands(es) || Holds(f))
  {
    if |es| > 0 {
      hide Passes, Init, Inv, Holds, Step;
      FlagAlways(es[..|es| - 1]);
      InvAlways(es[..|es| - 1]);
      FlagStep(Run(es[..|es| - 1]), es[|es| - 1], InitStands(es[..|es| - 1]));
    }
  }

  /**
   After every run, Start can go through if and only if nothing is started and either a successful
   Init stands, or no Init does and a component or part is still up. The second is what a failing
   Init leaves behind whose rollback fails as well.
  */
  lemma {:induction false} StartGoesThroughIff(es: seq<Event>)
    ensures CanStart(Run(es)) <==> !Run(es).started && (InitStands(es) || SomethingUp(Run(es).log))
  {
    hide Inv, Start, Init, Passes;
    InvAlways(es);
    FlagAlways(es);
    CanStartIff(Run(es));
    HoldsIsUp(Run(es));
    NothingHeld(Run(es));
  }

  lemma NothingHeld(f: State)
    requires Inv(f)
    ensures Holds(f) ==> f.initialized
  {
  }

  /** The names that Register has taken, in order. */
  ghost function Taken(es: seq<Event>): seq<Name> {
    if |es| == 0 then []
    else
      var before, e := es[..|es| - 1], es[|es| - 1];
      Taken(before) + (if e.DoRegister? && Register(Run(before), e.name).1 then [e.name] else [])
  }

  lemma OrderStep(f: State, e: Event)
    ensures Step(f, e).order == f.order + (if e.DoRegister? && Register(f, e.name).1 then [e.name] else [])
  {
    hide StopAll, CloseParts, OpenParts, InitComponents, StartServers, StartComponents, Filter, Failed;
  }

  lemma {:induction false} OrderIsTaken(es: seq<Event>)
    ensures Run(es).order == Taken(es)
  {
    if |es| > 0 {
      OrderIsTaken(es[..|es| - 1]);
      OrderStep(Run(es[..|es| - 1]), es[|es| - 1]);
    }
  }

  /**
   After every run, a component can be registered if and only if it has a name not taken before, no
   successful Init stands and nothing is up.
  */
  lemma {:induction false} RegisterTakesIff(es: seq<Event>, name: Name)
    ensures Register(Run(es), name).1
      <==> name != "" && name !in Taken(es) && !InitStands(es) && !SomethingUp(Run(es).log)
    ensures Run(es).order == Taken(es)
  {
    hide Inv, Init, Start, Passes, Taken;
    InvAlways(es);
    FlagAlways(es);
    HoldsIsUp(Run(es));
    NothingHeld(Run(es));
    OrderIsTaken(es);
    StartedIsInitialized(Run(es));
  }

  lemma StartedIsInitialized(f: State)
    requires Inv(f)
    ensures (f.started ==> f.initialized) && !f.initializing
  {
  }

  lemma SecondFails(a: Name, b: Name, init: InitEnv)
    requires a != b && init == InitEnv({}, {}, {a, b}, {a}, StopEnv({}, {}))
    ensures InitComponents([a, b], init, [], []) == Inited([a], [CompInit(a, true), CompInit(b, false)], false)
  {
    assert [a, b][1..] == [b] && [] + [a] == [a] && [] + [CompInit(a, true)] == [CompInit(a, true)];
    assert [CompInit(a, true)] + [CompInit(b, false)] == [CompInit(a, true), CompInit(b, false)];
  }

  /** b fails to initialise and a, which the rollback should stop, does not stop. */
  lemma InitFails(a: Name, b: Name, init: InitEnv, start: StartEnv)
    requires a != b && init == InitEnv({}, {}, {a, b}, {a}, StopEnv({}, {})) && start == StartEnv({}, {a}, {a}, StopEnv({}, {}))
    ensures Init(FRESH.(order := [a, b]), init) ==
      (State([a, b], [a], false, true, false, false, {}, [CompInit(a, true), CompInit(b, false), CompStop(a, false)]), false)
  {
    hide OpenParts, InitComponents, CloseParts, StopAll, Failed, Filter;
    var log := [CompInit(a, true), CompInit(b, false)];
    var none: set<Part> := {};
    assert none - none == none;
    NoParts(OPEN_ORDER, init, start, {}, []);
    SecondFails(a, b, init);
    NoParts(CLOSE_ORDER, init, start, {}, log + [CompStop(a, false)]);
    OneComponent(a, init.(initOk := {a}), start, log);
    assert log + [CompStop(a, false)] == [CompInit(a, true), CompInit(b, false), CompStop(a, false)];
  }

  /** It does happen: Init fails, its rollback fails, and Start then succeeds with a alone. */
  lemma {:induction false} StartedAfterFailedInit(a: Name, b: Name) returns (es: seq<Event>)
    requires a != b && a != "" && b != ""
    ensures !InitStands(es) && Run(es).started
    ensures Run(es).log == [CompInit(a, true), CompInit(b, false), CompStop(a, false), CompStart(a, true)]
  {
    hide Init, Start, StopPass;
    var none := StopEnv({}, {});
    var init := InitEnv({}, {}, {a, b}, {a}, none);
    var start := StartEnv({}, {a}, {a}, none);
    var e1 := [DoRegister(a)];
    var e2 := e1 + [DoRegister(b)];
    var e3 := e2 + [DoInit(init)];
    es := e3 + [DoStart(start)];
    assert e1[..0] == [] && e2[..1] == e1 && e3[..2] == e2 && es[..3] == e3;
    assert Run([]) == FRESH;
    assert Run(e1) == FRESH.(order := [a]);
    assert Run(e2) == FRESH.(order := [a, b]);
    InitFails(a, b, init, start);
    StartOrFail(a, init.(enabled := {a}), start, Run(e3));
  }
}
