/**
 The exact callbacks of one Init, Start or Stop of framework.go: which, in which order, and how far,
 by the components and parts alone.
*/
module FrameworkLogs {
  import opened Framework

  // ---------------------------------------------------------------- plans

  /** The calls of a plan that are made when the first failure ends it. */
  function Upto(plan: seq<Call>): seq<Call> {
    if |plan| == 0 then []
    else if plan[0].ok then [plan[0]] + Upto(plan[1..])
    else [plan[0]]
  }

  predicate AllOk(plan: seq<Call>) {
    forall c | c in plan :: c.ok
  }

  /** Either the whole plan, or all of it up to its first failing call. */
  lemma {:induction false} UptoIs(plan: seq<Call>) returns (k: nat)
    ensures AllOk(plan) ==> Upto(plan) == plan
    ensures !AllOk(plan) ==> k < |plan| && !plan[k].ok && AllOk(plan[..k]) && Upto(plan) == plan[..k + 1]
  {
    k := 0;
    if |plan| > 0 {
      assert plan == [plan[0]] + plan[1..];
      UptoFirst(plan[0], plan[1..]);
      if plan[0].ok {
        var j := UptoIs(plan[1..]);
        if !AllOk(plan[1..]) {
          k := j + 1;
          assert plan[..k] == [plan[0]] + plan[1..][..j] && plan[..k + 1] == [plan[0]] + plan[1..][..j + 1];
          UptoFirst(plan[0], plan[1..][..j]);
        }
      } else {
        assert plan[..1] == [plan[0]] && plan[..0] == [];
      }
    }
  }

  lemma {:induction false} UptoConcat(a: seq<Call>, b: seq<Call>)
    ensures AllOk(a + b) <==> AllOk(a) && AllOk(b)
    ensures Upto(a + b) == if AllOk(a) then a + Upto(b) else Upto(a)
  {
    if |a| == 0 {
      assert a + b == b;
    } else {
      assert (a + b)[1..] == a[1..] + b && a == [a[0]] + a[1..];
      UptoConcat(a[1..], b);
      assert a[0] in a;
    }
  }

  function Opens(parts: seq<Part>, ok: set<Part>): seq<Call> {
    if |parts| == 0 then [] else [PartOpen(parts[0], parts[0] in ok)] + Opens(parts[1..], ok)
  }

  function ServerStarts(parts: seq<Part>, ok: set<Part>): seq<Call> {
    if |parts| == 0 then [] else [PartStart(parts[0], parts[0] in ok)] + ServerStarts(parts[1..], ok)
  }

  function Closes(parts: seq<Part>, ok: set<Part>): seq<Call> {
    if |parts| == 0 then [] else [PartClose(parts[0], parts[0] in ok)] + Closes(parts[1..], ok)
  }

  function Inits(names: seq<Name>, ok: set<Name>): seq<Call> {
    if |names| == 0 then [] else [CompInit(names[0], names[0] in ok)] + Inits(names[1..], ok)
  }

  function Starts(names: seq<Name>, ok: set<Name>): seq<Call> {
    if |names| == 0 then [] else [CompStart(names[0], names[0] in ok)] + Starts(names[1..], ok)
  }

  /** The components, and the parts, that such calls have brought up. */
  function BroughtUp(calls: seq<Call>): seq<Name> {
    if |calls| == 0 then []
    else (if calls[0].CompInit? && calls[0].ok then [calls[0].name] else []) + BroughtUp(calls[1..])
  }

  function PartsUp(calls: seq<Call>): set<Part> {
    set c | c in calls && c.PartOpen? && c.ok :: c.part
  }

  // ---------------------------------------------------------------- the passes

  lemma FilterFront<T>(s: seq<T>, keep: set<T>)
    requires |s| > 0
    ensures Filter(s, keep) == if s[0] in keep then [s[0]] + Filter(s[1..], keep) else Filter(s[1..], keep)
  {
    assert s == [s[0]] + s[1..] && [s[0]][..0] == [];
    FilterConcat([s[0]], s[1..], keep);
  }

  lemma NothingPlanned<T>(s: seq<T>, keep: set<T>)
    ensures Upto([]) == [] && AllOk([]) && BroughtUp([]) == [] && PartsUp([]) == {}
    ensures |s| == 0 ==> Filter(s, keep) == []
  {
  }

  lemma Regroup<T>(a: seq<T>, x: T, b: seq<T>)
    ensures a + [x] + b == a + ([x] + b) && a + [x] + [] == a + [x]
  {
  }

  lemma {:induction false} StartComponentsMakes(names: seq<Name>, env: StartEnv, log: seq<Call>)
    ensures var plan := Starts(Filter(names, env.enabled), env.startOk);
      StartComponents(names, env, log) == Started(log + Upto(plan), AllOk(plan))
    decreases |names|
  {
    hide Upto, AllOk, Filter, BroughtUp, PartsUp;
    NothingPlanned(names, env.enabled);
    if |names| > 0 {
      FilterFront(names, env.enabled);
      if names[0] in env.enabled {
        var call := CompStart(names[0], names[0] in env.startOk);
        var rest := Starts(Filter(names[1..], env.enabled), env.startOk);
        assert Filter(names, env.enabled)[1..] == Filter(names[1..], env.enabled);
        UptoFirst(call, rest);
        Regroup(log, call, Upto(rest));
        StartComponentsMakes(names[1..], env, log + [call]);
      } else {
        StartComponentsMakes(names[1..], env, log);
      }
    }
  }

  lemma UptoFirst(call: Call, rest: seq<Call>)
    ensures AllOk([call] + rest) <==> call.ok && AllOk(rest)
    ensures Upto([call] + rest) == [call] + (if call.ok then Upto(rest) else [])
    ensures BroughtUp([call] + rest) == (if call.CompInit? && call.ok then [call.name] else []) + BroughtUp(rest)
    ensures PartsUp([call] + rest) == (if call.PartOpen? && call.ok then {call.part} else {}) + PartsUp(rest)
  {
    assert ([call] + rest)[1..] == rest;
    assert call in [call] + rest && forall c | c in rest :: c in [call] + rest;
  }

  lemma {:induction false} StartServersMakes(todo: seq<Part>, parts: set<Part>, env: StartEnv, log: seq<Call>)
    ensures var plan := ServerStarts(Filter(todo, parts), env.serverOk);
      StartServers(todo, parts, env, log) == Started(log + Upto(plan), AllOk(plan))
    decreases |todo|
  {
    hide Upto, AllOk, Filter, BroughtUp, PartsUp;
    NothingPlanned(todo, parts);
    if |todo| > 0 {
      FilterFront(todo, parts);
      if todo[0] in parts {
        var call := PartStart(todo[0], todo[0] in env.serverOk);
        var rest := ServerStarts(Filter(todo[1..], parts), env.serverOk);
        assert Filter(todo, parts)[1..] == Filter(todo[1..], parts);
        UptoFirst(call, rest);
        Regroup(log, call, Upto(rest));
        StartServersMakes(todo[1..], parts, env, log + [call]);
      } else {
        StartServersMakes(todo[1..], parts, env, log);
      }
    }
  }

  lemma {:induction false} OpenPartsMakes(todo: seq<Part>, env: InitEnv, parts: set<Part>, log: seq<Call>)
    ensures var plan := Opens(Filter(todo, env.configured), env.openOk);
      OpenParts(todo, env, parts, log) == Opened(parts + PartsUp(Upto(plan)), log + Upto(plan), AllOk(plan))
    decreases |todo|
  {
    hide Upto, AllOk, Filter, BroughtUp, PartsUp;
    NothingPlanned(todo, env.configured);
    if |todo| > 0 {
      FilterFront(todo, env.configured);
      if todo[0] in env.configured {
        var call := PartOpen(todo[0], todo[0] in env.openOk);
        var rest := Opens(Filter(todo[1..], env.configured), env.openOk);
        assert Filter(todo, env.configured)[1..] == Filter(todo[1..], env.configured);
        UptoFirst(call, rest);
        Regroup(log, call, Upto(rest));
        UptoFirst(call, if call.ok then Upto(rest) else []);
        OpenPartsMakes(todo[1..], env, parts + {todo[0]}, log + [call]);
        assert call.ok ==> parts + {todo[0]} + PartsUp(Upto(rest)) == parts + ({todo[0]} + PartsUp(Upto(rest)));
      } else {
        OpenPartsMakes(todo[1..], env, parts, log);
      }
    }
  }

  lemma {:induction false} InitComponentsMakes(names: seq<Name>, env: InitEnv, done: seq<Name>, log: seq<Call>)
    ensures var plan := Inits(Filter(names, env.enabled), env.initOk);
      InitComponents(names, env, done, log) == Inited(done + BroughtUp(Upto(plan)), log + Upto(plan), AllOk(plan))
    decreases |names|
  {
    hide Upto, AllOk, Filter, BroughtUp, PartsUp;
    NothingPlanned(names, env.enabled);
    if |names| > 0 {
      FilterFront(names, env.enabled);
      if names[0] in env.enabled {
        var call := CompInit(names[0], names[0] in env.initOk);
        var rest := Inits(Filter(names[1..], env.enabled), env.initOk);
        assert Filter(names, env.enabled)[1..] == Filter(names[1..], env.enabled);
        UptoFirst(call, rest);
        Regroup(log, call, Upto(rest));
        UptoFirst(call, if call.ok then Upto(rest) else []);
        InitComponentsMakes(names[1..], env, done + [names[0]], log + [call]);
        Regroup(done, names[0], BroughtUp(Upto(rest)));
      } else {
        InitComponentsMakes(names[1..], env, done, log);
      }
    }
  }

  lemma {:induction false} ClosePartsMakes(todo: seq<Part>, used: set<Part>, ok: set<Part>, log: seq<Call>)
    ensures CloseParts(todo, used, ok, log) == log + Closes(Filter(todo, used), ok)
    decreases |todo|
  {
    if |todo| > 0 {
      FilterFront(todo, used);
      if todo[0] in used {
        var call := PartClose(todo[0], todo[0] in ok);
        assert Filter(todo, used)[1..] == Filter(todo[1..], used);
        ClosePartsMakes(todo[1..], used, ok, log + [call]);
        assert log + [call] + Closes(Filter(todo[1..], used), ok) == log + ([call] + Closes(Filter(todo[1..], used), ok));
      } else {
        ClosePartsMakes(todo[1..], used, ok, log);
      }
    }
  }

  // ---------------------------------------------------------------- the three operations

  /** Every component in reverse, then every part in use, whatever fails. */
  ghost function StopPlan(names: seq<Name>, parts: set<Part>, env: StopEnv): seq<Call> {
    ReverseStops(names, env.stopOk)
    + Closes(Filter([HttpServer, GrpcServer, GrpcClient, Redis, MongoDB, Gorm, Tracing, Logger], parts), env.closeOk)
  }

  /** The gRPC server, the HTTP server, then the recorded components that are enabled, in the order of the record. */
  function StartPlan(names: seq<Name>, parts: set<Part>, env: StartEnv): seq<Call> {
    ServerStarts(Filter([GrpcServer, HttpServer], parts), env.serverOk) + Starts(Filter(names, env.enabled), env.startOk)
  }

  /** The configured parts, then the registered components that are enabled, in the order of registration. */
  function InitPlan(names: seq<Name>, env: InitEnv): seq<Call> {
    Opens(Filter([Tracing, Logger, GrpcServer, GrpcClient, HttpServer, Gorm, MongoDB, Redis], env.configured), env.openOk)
    + Inits(Filter(names, env.enabled), env.initOk)
  }

  /** A stop pass makes all its calls, and only those. */
  lemma StopMakes(f: State, env: StopEnv)
    ensures StopPass(f, env).0.log ==
      if f.stopped || !(f.initializing || f.initialized || f.started) then f.log
      else f.log + StopPlan(f.inited, f.parts, env)
  {
    var stops := StopAll(f.inited, env.stopOk, f.log);
    StopVisitsInReverse(f.inited, env.stopOk, f.log);
    ClosePartsMakes(CLOSE_ORDER, f.parts, env.closeOk, stops);
  }

  lemma StartMakesFrom(f: State, env: StartEnv)
    requires f.initialized && !f.started && !f.stopped
    ensures var plan, r := StartPlan(f.inited, f.parts, env), Start(f, env);
      && r.1 == AllOk(plan)
      && r.0.log == f.log + Upto(plan) + (if r.1 then [] else StopPlan(f.inited, f.parts, env.rollback))
      && (r.1 ==> r.0 == f.(started := true, log := f.log + plan))
  {
    hide StopPass, StopPlan, StartServers, StartComponents, Upto, AllOk, Filter, ServerStarts, Starts;
    var a, b := ServerStarts(Filter(SERVERS, f.parts), env.serverOk), Starts(Filter(f.inited, env.enabled), env.startOk);
    StartServersMakes(SERVERS, f.parts, env, f.log);
    StartComponentsMakes(f.inited, env, f.log + Upto(a));
    TwoPasses(a, b, f.log);
    StopMakes(f.(log := f.log + Upto(a)), env.rollback);
    StopMakes(f.(log := f.log + Upto(a) + Upto(b)), env.rollback);
  }

  /** A second pass only follows a first one that went through. */
  lemma TwoPasses(a: seq<Call>, b: seq<Call>, log: seq<Call>)
    ensures AllOk(a + b) <==> AllOk(a) && AllOk(b)
    ensures AllOk(a + b) ==> Upto(a + b) == a + b
    ensures log + Upto(a + b) == if AllOk(a) then log + Upto(a) + Upto(b) else log + Upto(a)
  {
    hide AllOk, Upto;
    UptoConcat(a, b);
    var k := UptoIs(a);
    k := UptoIs(a + b);
    assert log + a + Upto(b) == log + (a + Upto(b));
  }

  /**
   In every run: an accepted Start succeeds exactly when every call of its plan does, and has then made
   them all, in order; otherwise it makes them up to the first failure and then the whole stop pass.
  */
  lemma StartMakes(es: seq<Event>, env: StartEnv)
    ensures var f := Run(es);
      var plan, r := StartPlan(f.inited, f.parts, env), Start(f, env);
      if !f.initialized || f.started then r == (f, false)
      else
        && r.1 == AllOk(plan)
        && r.0.log == f.log + Upto(plan) + (if r.1 then [] else StopPlan(f.inited, f.parts, env.rollback))
        && (r.1 ==> r.0 == f.(started := true, log := f.log + plan))
  {
    hide Run, StartPlan, StopPlan, StopPass, Upto, AllOk;
    InvAlways(es);
    if Run(es).initialized && !Run(es).started { StartMakesFrom(Run(es), env); }
  }

  function InitOpens(env: InitEnv): seq<Call> {
    Opens(Filter(OPEN_ORDER, env.configured), env.openOk)
  }

  function InitInits(f: State, env: InitEnv): seq<Call> {
    Inits(Filter(f.order, env.enabled), env.initOk)
  }

  /** Init once its parts are open, or one of them failed to. */
  function Opening(f: State, env: InitEnv): State {
    f.(stopped := false, initializing := true, parts := PartsUp(Upto(InitOpens(env))), log := f.log + Upto(InitOpens(env)))
  }

  /** ... and once its components are initialised, or one of them failed to. */
  function Initing(f: State, env: InitEnv): State {
    Opening(f, env).(inited := BroughtUp(Upto(InitInits(f, env))), log := Opening(f, env).log + Upto(InitInits(f, env)))
  }

  lemma InitPasses(f: State, env: InitEnv)
    requires !f.initialized && f.inited == [] && f.parts == {}
    ensures Init(f, env) ==
      if !AllOk(InitOpens(env)) then (StopPass(Opening(f, env), env.rollback).0.(initializing := false), false)
      else if !AllOk(InitInits(f, env)) then (StopPass(Initing(f, env), env.rollback).0.(initializing := false), false)
      else (Initing(f, env).(initialized := true, initializing := false), true)
  {
    hide StopPass, OpenParts, InitComponents, Upto, AllOk, BroughtUp, PartsUp, Opens, Inits, Filter;
    OpenPartsMakes(OPEN_ORDER, env, {}, f.log);
    InitComponentsMakes(f.order, env, [], f.log + Upto(InitOpens(env)));
    assert {} + PartsUp(Upto(InitOpens(env))) == PartsUp(Upto(InitOpens(env)));
    assert [] + BroughtUp(Upto(InitInits(f, env))) == BroughtUp(Upto(InitInits(f, env)));
  }

  lemma InitMakesFrom(f: State, env: InitEnv)
    requires !f.initialized && f.inited == [] && f.parts == {}
    ensures var plan, r := InitPlan(f.order, env), Init(f, env);
      && r.1 == AllOk(plan)
      && r.0.log == f.log + Upto(plan)
         + (if r.1 then [] else StopPlan(BroughtUp(Upto(plan)), PartsUp(Upto(plan)), env.rollback))
      && (r.1 ==> r.0 == State(f.order, BroughtUp(plan), false, true, f.started, false, PartsUp(plan), f.log + plan))
  {
    hide StopPass, StopPlan, Init, Upto, AllOk, BroughtUp, PartsUp, InitOpens, InitInits;
    var opens, inits := InitOpens(env), InitInits(f, env);
    PlanIsPasses(f, env);
    InitPasses(f, env);
    TwoPasses(opens, inits, f.log);
    UpOfPasses(opens, inits);
    OnlyInPasses(f, env);
    StopMakes(Opening(f, env), env.rollback);
    StopMakes(Initing(f, env), env.rollback);
    assert [] + BroughtUp(Upto(inits)) == BroughtUp(Upto(inits)) && PartsUp(Upto(opens)) + {} == PartsUp(Upto(opens));
  }

  lemma PlanIsPasses(f: State, env: InitEnv)
    ensures InitPlan(f.order, env) == InitOpens(env) + InitInits(f, env)
  {
    hide Opens, Inits, Filter;
  }

  lemma OnlyInPasses(f: State, env: InitEnv)
    ensures BroughtUp(Upto(InitOpens(env))) == [] && PartsUp(Upto(InitInits(f, env))) == {}
  {
    OnlyOpens(Filter(OPEN_ORDER, env.configured), env.openOk);
    OnlyInits(Filter(f.order, env.enabled), env.initOk);
  }

  lemma UpOfPasses(a: seq<Call>, b: seq<Call>)
    ensures BroughtUp(Upto(a + b)) == BroughtUp(Upto(a)) + (if AllOk(a) then BroughtUp(Upto(b)) else [])
    ensures PartsUp(Upto(a + b)) == PartsUp(Upto(a)) + (if AllOk(a) then PartsUp(Upto(b)) else {})
  {
    hide AllOk, Upto, BroughtUp, PartsUp;
    UptoConcat(a, b);
    UpConcat(a, Upto(b));
    var k := UptoIs(a);
  }

  lemma {:induction false} UpConcat(a: seq<Call>, b: seq<Call>)
    ensures BroughtUp(a + b) == BroughtUp(a) + BroughtUp(b) && PartsUp(a + b) == PartsUp(a) + PartsUp(b)
  {
    if |a| == 0 {
      assert a + b == b;
    } else {
      assert (a + b)[1..] == a[1..] + b;
      UpConcat(a[1..], b);
    }
  }

  lemma {:induction false} OnlyOpens(parts: seq<Part>, ok: set<Part>)
    ensures BroughtUp(Opens(parts, ok)) == [] && BroughtUp(Upto(Opens(parts, ok))) == []
  {
    if |parts| > 0 { OnlyOpens(parts[1..], ok); }
  }

  lemma {:induction false} OnlyInits(names: seq<Name>, ok: set<Name>)
    ensures PartsUp(Inits(names, ok)) == {} && PartsUp(Upto(Inits(names, ok))) == {}
  {
    if |names| > 0 {
      var call := CompInit(names[0], names[0] in ok);
      OnlyInits(names[1..], ok);
      UptoFirst(call, Inits(names[1..], ok));
      UptoFirst(call, if call.ok then Upto(Inits(names[1..], ok)) else []);
    }
  }

  lemma {:induction false} AllUp(names: seq<Name>, ok: set<Name>)
    requires AllOk(Inits(names, ok))
    ensures BroughtUp(Inits(names, ok)) == names
  {
    if |names| > 0 {
      var call := CompInit(names[0], names[0] in ok);
      UptoFirst(call, Inits(names[1..], ok));
      AllUp(names[1..], ok);
    }
  }

  lemma {:induction false} AllOpened(parts: seq<Part>, ok: set<Part>)
    requires AllOk(Opens(parts, ok))
    ensures PartsUp(Opens(parts, ok)) == ToSet(parts)
  {
    if |parts| > 0 {
      var call := PartOpen(parts[0], parts[0] in ok);
      UptoFirst(call, Opens(parts[1..], ok));
      AllOpened(parts[1..], ok);
    }
  }

  /**
   In every run: an accepted Init succeeds exactly when every call of its plan does, and has then made
   them all, in order, with exactly the enabled components recorded and the configured parts open;
   otherwise it makes them up to the first failure and stops what they had brought up.
  */
  lemma InitMakes(es: seq<Event>, env: InitEnv)
    ensures var f := Run(es);
      var plan, r := InitPlan(f.order, env), Init(f, env);
      if f.initialized then r == (f, false)
      else
        && r.1 == AllOk(plan)
        && r.0.log == f.log + Upto(plan)
           + (if r.1 then [] else StopPlan(BroughtUp(Upto(plan)), PartsUp(Upto(plan)), env.rollback))
        && (r.1 ==> r.0 == State(f.order, Filter(f.order, env.enabled), false, true, false, false, env.configured, f.log + plan))
  {
    hide Run, StopPlan, StopPass, Upto, AllOk, BroughtUp, PartsUp;
    InvAlways(es);
    var f := Run(es);
    if !f.initialized {
      InitMakesFrom(f, env);
      if AllOk(InitPlan(f.order, env)) { CompletePlan(f.order, env); }
    }
  }

  lemma CompletePlan(names: seq<Name>, env: InitEnv)
    requires AllOk(InitPlan(names, env))
    ensures var plan := InitPlan(names, env);
      BroughtUp(plan) == Filter(names, env.enabled) && PartsUp(plan) == env.configured && Upto(plan) == plan
  {
    hide BroughtUp, PartsUp, Opens, Inits, Upto;
    var order := [Tracing, Logger, GrpcServer, GrpcClient, HttpServer, Gorm, MongoDB, Redis];
    var opens, inits := Opens(Filter(order, env.configured), env.openOk), Inits(Filter(names, env.enabled), env.initOk);
    UptoConcat(opens, inits);
    UpConcat(opens, inits);
    OnlyOpens(Filter(order, env.configured), env.openOk);
    OnlyInits(Filter(names, env.enabled), env.initOk);
    AllUp(Filter(names, env.enabled), env.initOk);
    AllOpened(Filter(order, env.configured), env.openOk);
    FilterMembers(order, env.configured);
    EveryPartOpens(order);
    var k := UptoIs(opens + inits);
  }

  lemma EveryPartOpens(order: seq<Part>)
    requires order == [Tracing, Logger, GrpcServer, GrpcClient, HttpServer, Gorm, MongoDB, Redis]
    ensures forall p: Part :: p in ToSet(order)
  {
    forall p: Part ensures p in order {
      match p
      case Tracing => assert order[0] == p;
      case Logger => assert order[1] == p;
      case GrpcServer => assert order[2] == p;
      case GrpcClient => assert order[3] == p;
      case HttpServer => assert order[4] == p;
      case Gorm => assert order[5] == p;
      case MongoDB => assert order[6] == p;
      case Redis => assert order[7] == p;
    }
  }
}
