/**
 The lifecycle of framework.go: Init, Start, Stop and RegisterComponent over any list of custom
 components and the built-in parts, with arbitrary failures of every callback.

 A ledger of all callbacks is kept beside the state. It is proved that no run ever calls a
 component out of phase: Init only on a component that is down, Start and Stop only on one that
 is up, and at rest the components that are up are exactly those still recorded for stopping.
*/
module Framework {

  type Name = string

  /** The built-in parts that are opened by Init and closed by Stop. */
  datatype Part = Tracing | Logger | GrpcServer | GrpcClient | HttpServer | Gorm | MongoDB | Redis

  const OPEN_ORDER: seq<Part> := [Tracing, Logger, GrpcServer, GrpcClient, HttpServer, Gorm, MongoDB, Redis]
  const CLOSE_ORDER: seq<Part> := [HttpServer, GrpcServer, GrpcClient, Redis, MongoDB, Gorm, Tracing, Logger]
  const SERVERS: seq<Part> := [GrpcServer, HttpServer]

  datatype Call =
    | CompInit(name: Name, ok: bool)
    | CompStart(name: Name, ok: bool)
    | CompStop(name: Name, ok: bool)
    | PartOpen(part: Part, ok: bool)
    | PartStart(part: Part, ok: bool)
    | PartClose(part: Part, ok: bool)

  // ---------------------------------------------------------------- what the environment decides

  /** Which component stops and part closes succeed. */
  datatype StopEnv = StopEnv(stopOk: set<Name>, closeOk: set<Part>)

  datatype InitEnv = InitEnv(configured: set<Part>, openOk: set<Part>, enabled: set<Name>, initOk: set<Name>, rollback: StopEnv)

  datatype StartEnv = StartEnv(serverOk: set<Part>, enabled: set<Name>, startOk: set<Name>, rollback: StopEnv)

  // ---------------------------------------------------------------- the state

  datatype State = State(
    order: seq<Name>,      // registered components
    inited: seq<Name>,     // components to stop, in Init order
    initializing: bool,
    initialized: bool,
    started: bool,
    stopped: bool,
    parts: set<Part>,      // built-in slots in use
    log: seq<Call>)

  const FRESH := State([], [], false, false, false, false, {}, [])

  // ---------------------------------------------------------------- passes over lists

  /** The members of s that are in keep, in order. */
  function Filter<T(==)>(s: seq<T>, keep: set<T>): seq<T> {
    if |s| == 0 then []
    else Filter(s[..|s| - 1], keep) + (if s[|s| - 1] in keep then [s[|s| - 1]] else [])
  }

  /** The stop pass: last component first, regardless of failures. */
  function StopAll(names: seq<Name>, ok: set<Name>, log: seq<Call>): seq<Call>
    decreases |names|
  {
    if |names| == 0 then log
    else
      var last := names[|names| - 1];
      StopAll(names[..|names| - 1], ok, log + [CompStop(last, last in ok)])
  }

  function CloseParts(todo: seq<Part>, used: set<Part>, ok: set<Part>, log: seq<Call>): seq<Call>
    decreases |todo|
  {
    if |todo| == 0 then log
    else CloseParts(todo[1..], used, ok, if todo[0] in used then log + [PartClose(todo[0], todo[0] in ok)] else log)
  }

  datatype Opened = Opened(parts: set<Part>, log: seq<Call>, ok: bool)

  function OpenParts(todo: seq<Part>, env: InitEnv, parts: set<Part>, log: seq<Call>): Opened
    decreases |todo|
  {
    if |todo| == 0 then Opened(parts, log, true)
    else if todo[0] !in env.configured then OpenParts(todo[1..], env, parts, log)
    else if todo[0] !in env.openOk then Opened(parts, log + [PartOpen(todo[0], false)], false)
    else OpenParts(todo[1..], env, parts + {todo[0]}, log + [PartOpen(todo[0], true)])
  }

  datatype Inited = Inited(done: seq<Name>, log: seq<Call>, ok: bool)

  function InitComponents(names: seq<Name>, env: InitEnv, done: seq<Name>, log: seq<Call>): Inited
    decreases |names|
  {
    if |names| == 0 then Inited(done, log, true)
    else if names[0] !in env.enabled then InitComponents(names[1..], env, done, log)
    else if names[0] !in env.initOk then Inited(done, log + [CompInit(names[0], false)], false)
    else InitComponents(names[1..], env, done + [names[0]], log + [CompInit(names[0], true)])
  }

  datatype Started = Started(log: seq<Call>, ok: bool)

  function StartServers(todo: seq<Part>, parts: set<Part>, env: StartEnv, log: seq<Call>): Started
    decreases |todo|
  {
    if |todo| == 0 then Started(log, true)
    else if todo[0] !in parts then StartServers(todo[1..], parts, env, log)
    else if todo[0] !in env.serverOk then Started(log + [PartStart(todo[0], false)], false)
    else StartServers(todo[1..], parts, env, log + [PartStart(todo[0], true)])
  }

  function StartComponents(names: seq<Name>, env: StartEnv, log: seq<Call>): Started
    decreases |names|
  {
    if |names| == 0 then Started(log, true)
    else if names[0] !in env.enabled then StartComponents(names[1..], env, log)
    else if names[0] !in env.startOk then Started(log + [CompStart(names[0], false)], false)
    else StartComponents(names[1..], env, log + [CompStart(names[0], true)])
  }

  // ---------------------------------------------------------------- the operations

  predicate Running(f: State) {
    f.initializing || f.initialized || f.started
  }

  ghost function Failed(names: seq<Name>, ok: set<Name>): set<Name> {
    set n | n in names && n !in ok
  }

  /** The shared stop pass; the result says whether every callback succeeded. */
  ghost function StopPass(f: State, env: StopEnv): (State, bool) {
    if f.stopped || !Running(f) then (f, true)
    else
      var failed := Failed(f.inited, env.stopOk);
      var left := f.parts - env.closeOk;
      var log := CloseParts(CLOSE_ORDER, f.parts, env.closeOk, StopAll(f.inited, env.stopOk, f.log));
      var ok := failed == {} && left == {};
      (State(f.order, if ok then [] else Filter(f.inited, failed), false, !ok, false, ok, left, log), ok)
  }

  ghost function Stop(f: State, env: StopEnv): (State, bool) {
    StopPass(f, env)
  }

  ghost function Init(f: State, env: InitEnv): (State, bool) {
    if f.initialized then (f, false)
    else
      var f0 := f.(stopped := false, initializing := true);
      var p := OpenParts(OPEN_ORDER, env, f0.parts, f0.log);
      var f1 := f0.(parts := p.parts, log := p.log);
      if !p.ok then (StopPass(f1, env.rollback).0.(initializing := false), false)
      else
        var c := InitComponents(f.order, env, f1.inited, f1.log);
        var f2 := f1.(inited := c.done, log := c.log);
        if !c.ok then (StopPass(f2, env.rollback).0.(initializing := false), false)
        else (f2.(initialized := true, initializing := false), true)
  }

  ghost function Start(f: State, env: StartEnv): (State, bool) {
    if !f.initialized || f.started then (f, false)
    else
      var s := StartServers(SERVERS, f.parts, env, f.log);
      if !s.ok then (StopPass(f.(log := s.log), env.rollback).0, false)
      else
        var c := StartComponents(f.inited, env, s.log);
        if !c.ok then (StopPass(f.(log := c.log), env.rollback).0, false)
        else (f.(log := c.log, started := true), true)
  }

  ghost function Register(f: State, name: Name): (State, bool) {
    if name == "" || name in f.order || Running(f) then (f, false)
    else (f.(order := f.order + [name]), true)
  }

  // ---------------------------------------------------------------- the ledger

  /** Successful Inits minus successful Stops of a component. */
  function Balance(log: seq<Call>, n: Name): int {
    if |log| == 0 then 0
    else Balance(log[..|log| - 1], n) + (match log[|log| - 1]
      case CompInit(m, ok) => if m == n && ok then 1 else 0
      case CompStop(m, ok) => if m == n && ok then -1 else 0
      case _ => 0)
  }

  /** Successful opens minus successful closes of a built-in part. */
  function PartBalance(log: seq<Call>, p: Part): int {
    if |log| == 0 then 0
    else PartBalance(log[..|log| - 1], p) + (match log[|log| - 1]
      case PartOpen(q, ok) => if q == p && ok then 1 else 0
      case PartClose(q, ok) => if q == p && ok then -1 else 0
      case _ => 0)
  }

  /** No callback was ever made out of phase. */
  ghost predicate InPhase(log: seq<Call>) {
    |log| > 0 ==>
      var before := log[..|log| - 1];
      InPhase(before) && match log[|log| - 1]
        case CompInit(n, _) => Balance(before, n) == 0
        case CompStart(n, _) => Balance(before, n) == 1
        case CompStop(n, _) => Balance(before, n) == 1
        case PartOpen(p, _) => PartBalance(before, p) == 0
        case PartStart(p, _) => PartBalance(before, p) == 1
        case PartClose(p, _) => PartBalance(before, p) == 1
  }

  /** The components and parts that are up according to the ledger. */
  ghost predicate Ledger(log: seq<Call>, live: set<Name>, parts: set<Part>) {
    && InPhase(log)
    && (forall n :: Balance(log, n) == if n in live then 1 else 0)
    && (forall p :: PartBalance(log, p) == if p in parts then 1 else 0)
  }

  /** One more callback in phase moves exactly its own component or part. */
  lemma LedgerStep(log: seq<Call>, live: set<Name>, parts: set<Part>, call: Call)
    requires Ledger(log, live, parts)
    requires match call
      case CompInit(n, _) => n !in live
      case CompStart(n, _) => n in live
      case CompStop(n, _) => n in live
      case PartOpen(p, _) => p !in parts
      case PartStart(p, _) => p in parts
      case PartClose(p, _) => p in parts
    ensures Ledger(log + [call],
      if call.CompInit? && call.ok then live + {call.name} else if call.CompStop? && call.ok then live - {call.name} else live,
      if call.PartOpen? && call.ok then parts + {call.part} else if call.PartClose? && call.ok then parts - {call.part} else parts)
  {
    assert (log + [call])[..|log|] == log;
  }

  ghost function ToSet<T>(s: seq<T>): set<T> {
    set x | x in s
  }

  ghost predicate Distinct<T>(s: seq<T>) {
    forall i, j | 0 <= i < j < |s| :: s[i] != s[j]
  }

  lemma {:induction false} StopAllLedger(names: seq<Name>, ok: set<Name>, log: seq<Call>, live: set<Name>, parts: set<Part>)
    requires Ledger(log, live, parts) && Distinct(names) && ToSet(names) <= live
    ensures Ledger(StopAll(names, ok, log), live - (ToSet(names) * ok), parts)
    decreases |names|
  {
    hide Ledger;
    if |names| > 0 {
      var init, last := names[..|names| - 1], names[|names| - 1];
      var call := CompStop(last, last in ok);
      assert last in ToSet(names);
      LedgerStep(log, live, parts, call);
      var live' := if last in ok then live - {last} else live;
      assert ToSet(names) == ToSet(init) + {last};
      assert last !in init;
      StopAllLedger(init, ok, log + [call], live', parts);
      assert live' - (ToSet(init) * ok) == live - (ToSet(names) * ok);
    } else {
      assert live - (ToSet(names) * ok) == live;
    }
  }

  lemma {:induction false} ClosePartsLedger(todo: seq<Part>, used: set<Part>, ok: set<Part>, log: seq<Call>, live: set<Name>, parts: set<Part>)
    requires Ledger(log, live, parts) && Distinct(todo) && ToSet(todo) * used <= parts
    ensures Ledger(CloseParts(todo, used, ok, log), live, parts - (ToSet(todo) * used * ok))
    decreases |todo|
  {
    hide Ledger;
    if |todo| > 0 {
      var p, rest := todo[0], todo[1..];
      assert ToSet(todo) == ToSet(rest) + {p} && p !in rest;
      if p in used {
        var call := PartClose(p, p in ok);
        LedgerStep(log, live, parts, call);
        var parts' := if p in ok then parts - {p} else parts;
        ClosePartsLedger(rest, used, ok, log + [call], live, parts');
        assert parts' - (ToSet(rest) * used * ok) == parts - (ToSet(todo) * used * ok);
      } else {
        ClosePartsLedger(rest, used, ok, log, live, parts);
        assert ToSet(rest) * used * ok == ToSet(todo) * used * ok;
      }
    } else {
      assert parts - (ToSet(todo) * used * ok) == parts;
    }
  }

  lemma {:induction false} OpenPartsLedger(todo: seq<Part>, env: InitEnv, parts: set<Part>, log: seq<Call>, live: set<Name>)
    requires Ledger(log, live, parts) && Distinct(todo) && ToSet(todo) !! parts
    ensures Ledger(OpenParts(todo, env, parts, log).log, live, OpenParts(todo, env, parts, log).parts)
    decreases |todo|
  {
    hide Ledger;
    if |todo| > 0 {
      var p, rest := todo[0], todo[1..];
      assert ToSet(todo) == ToSet(rest) + {p} && p !in rest;
      if p in env.configured {
        LedgerStep(log, live, parts, PartOpen(p, p in env.openOk));
        if p in env.openOk { OpenPartsLedger(rest, env, parts + {p}, log + [PartOpen(p, true)], live); }
      } else {
        OpenPartsLedger(rest, env, parts, log, live);
      }
    }
  }

  lemma {:induction false} InitComponentsLedger(names: seq<Name>, env: InitEnv, done: seq<Name>, log: seq<Call>, parts: set<Part>)
    requires Ledger(log, ToSet(done), parts) && Distinct(names) && ToSet(names) !! ToSet(done)
    ensures var c := InitComponents(names, env, done, log);
      Ledger(c.log, ToSet(c.done), parts)
    decreases |names|
  {
    hide Ledger;
    if |names| > 0 {
      var n, rest := names[0], names[1..];
      assert ToSet(names) == ToSet(rest) + {n} && n !in rest;
      if n in env.enabled {
        LedgerStep(log, ToSet(done), parts, CompInit(n, n in env.initOk));
        if n in env.initOk {
          assert ToSet(done + [n]) == ToSet(done) + {n};
          InitComponentsLedger(rest, env, done + [n], log + [CompInit(n, true)], parts);
        }
      } else {
        InitComponentsLedger(rest, env, done, log, parts);
      }
    }
  }

  lemma {:induction false} StartServersLedger(todo: seq<Part>, parts: set<Part>, env: StartEnv, log: seq<Call>, live: set<Name>)
    requires Ledger(log, live, parts)
    ensures Ledger(StartServers(todo, parts, env, log).log, live, parts)
    decreases |todo|
  {
    hide Ledger;
    if |todo| > 0 {
      if todo[0] in parts {
        var call := PartStart(todo[0], todo[0] in env.serverOk);
        LedgerStep(log, live, parts, call);
        StartServersLedger(todo[1..], parts, env, log + [call], live);
      } else {
        StartServersLedger(todo[1..], parts, env, log, live);
      }
    }
  }

  lemma {:induction false} StartComponentsLedger(names: seq<Name>, env: StartEnv, log: seq<Call>, live: set<Name>, parts: set<Part>)
    requires Ledger(log, live, parts) && ToSet(names) <= live
    ensures Ledger(StartComponents(names, env, log).log, live, parts)
    decreases |names|
  {
    hide Ledger;
    if |names| > 0 {
      assert names[0] in ToSet(names) && ToSet(names[1..]) <= ToSet(names);
      if names[0] in env.enabled {
        var call := CompStart(names[0], names[0] in env.startOk);
        LedgerStep(log, live, parts, call);
        StartComponentsLedger(names[1..], env, log + [call], live, parts);
      } else {
        StartComponentsLedger(names[1..], env, log, live, parts);
      }
    }
  }

  // ---------------------------------------------------------------- subsequences

  lemma {:induction false} FilterMembers<T>(s: seq<T>, keep: set<T>)
    ensures ToSet(Filter(s, keep)) == ToSet(s) * keep
  {
    if |s| > 0 {
      var init, last := s[..|s| - 1], s[|s| - 1];
      FilterMembers(init, keep);
      assert s == init + [last];
      assert ToSet(s) == ToSet(init) + {last};
      if last in keep {
        assert ToSet(Filter(s, keep)) == ToSet(Filter(init, keep)) + {last};
      } else {
        assert Filter(s, keep) == Filter(init, keep);
      }
    }
  }

  lemma {:induction false} FilterDistinct<T>(s: seq<T>, keep: set<T>)
    requires Distinct(s)
    ensures Distinct(Filter(s, keep))
  {
    if |s| > 0 {
      var init, last := s[..|s| - 1], s[|s| - 1];
      FilterDistinct(init, keep);
      FilterMembers(init, keep);
      assert last !in init;
      assert last !in ToSet(Filter(init, keep));
      assert forall i | 0 <= i < |Filter(init, keep)| :: Filter(init, keep)[i] in ToSet(Filter(init, keep));
    }
  }

  lemma {:induction false} FilterTwice<T>(s: seq<T>, a: set<T>, b: set<T>)
    ensures Filter(Filter(s, a), b) == Filter(s, a * b)
  {
    if |s| > 0 {
      var init, last := s[..|s| - 1], s[|s| - 1];
      FilterTwice(init, a, b);
      if last in a {
        var f := Filter(init, a) + [last];
        assert f[..|f| - 1] == Filter(init, a);
      } else {
        assert Filter(s, a) == Filter(init, a);
      }
    }
  }

  lemma {:induction false} FilterAgree<T>(s: seq<T>, a: set<T>, b: set<T>)
    requires forall x | x in s :: x in a <==> x in b
    ensures Filter(s, a) == Filter(s, b)
  {
    if |s| > 0 { FilterAgree(s[..|s| - 1], a, b); }
  }

  lemma {:induction false} FilterNothing<T>(s: seq<T>, keep: set<T>)
    requires forall x | x in s :: x !in keep
    ensures Filter(s, keep) == []
  {
    if |s| > 0 { FilterNothing(s[..|s| - 1], keep); }
  }

  lemma {:induction false} FilterConcat<T>(a: seq<T>, b: seq<T>, keep: set<T>)
    ensures Filter(a + b, keep) == Filter(a, keep) + Filter(b, keep)
  {
    if |b| == 0 {
      assert a + b == a;
    } else {
      assert (a + b)[..|a + b| - 1] == a + b[..|b| - 1];
      FilterConcat(a, b[..|b| - 1], keep);
    }
  }

  lemma DistinctSplit(before: seq<Name>, n: Name, rest: seq<Name>)
    requires Distinct(before + [n] + rest)
    ensures n !in before && n !in rest && forall x | x in rest :: x !in before
  {
    var all := before + [n] + rest;
    forall i | 0 <= i < |before| ensures before[i] != n && before[i] !in rest {
      assert all[i] == before[i] && all[|before|] == n;
      forall j | 0 <= j < |rest| ensures rest[j] != before[i] { assert all[|before| + 1 + j] == rest[j]; }
    }
    forall j | 0 <= j < |rest| ensures rest[j] != n {
      assert all[|before|] == n && all[|before| + 1 + j] == rest[j];
    }
  }

  /** Init goes through the components in registration order. */
  lemma {:induction false} InitComponentsOrder(before: seq<Name>, names: seq<Name>, env: InitEnv, done: seq<Name>, log: seq<Call>)
    requires Distinct(before + names) && done == Filter(before, ToSet(done)) && ToSet(done) <= ToSet(before)
    ensures var c := InitComponents(names, env, done, log);
      c.done == Filter(before + names, ToSet(c.done)) && ToSet(c.done) <= ToSet(before + names)
    decreases |names|
  {
    if |names| == 0 {
      assert before + names == before;
    } else {
      var n, rest := names[0], names[1..];
      assert before + names == (before + [n]) + rest;
      DistinctSplit(before, n, rest);
      assert ToSet(before + [n]) == ToSet(before) + {n};
      assert [n][..0] == [];
      if n in env.enabled && n in env.initOk {
        var done' := done + [n];
        assert ToSet(done') == ToSet(done) + {n};
        FilterConcat(before, [n], ToSet(done'));
        FilterAgree(before, ToSet(done), ToSet(done'));
        assert Filter([n], ToSet(done')) == [n];
        InitComponentsOrder(before + [n], rest, env, done', log + [CompInit(n, true)]);
      } else {
        assert n !in ToSet(done);
        FilterConcat(before, [n], ToSet(done));
        assert Filter([n], ToSet(done)) == [];
        if n in env.enabled {
          FilterConcat(before + [n], rest, ToSet(done));
          assert forall x | x in rest :: x !in ToSet(before);
          FilterNothing(rest, ToSet(done));
        } else {
          InitComponentsOrder(before + [n], rest, env, done, log);
        }
      }
    }
  }

  // ---------------------------------------------------------------- the invariant at rest

  ghost predicate Inv(f: State) {
    && !f.initializing
    && (f.stopped ==> !f.initialized)
    && (!f.initialized ==> f.inited == [] && f.parts == {} && !f.started)
    && Distinct(f.order)
    && f.inited == Filter(f.order, ToSet(f.inited)) && ToSet(f.inited) <= ToSet(f.order)
    && Ledger(f.log, ToSet(f.inited), f.parts)
  }

  /** What a stop pass needs, also in the middle of Init. */
  ghost predicate Stoppable(f: State) {
    && !f.stopped && Running(f)
    && Distinct(f.order)
    && f.inited == Filter(f.order, ToSet(f.inited)) && ToSet(f.inited) <= ToSet(f.order)
    && Ledger(f.log, ToSet(f.inited), f.parts)
  }

  lemma {:induction false} StopPassRestores(f: State, env: StopEnv)
    requires Stoppable(f)
    ensures Inv(StopPass(f, env).0)
  {
    var failed, live := Failed(f.inited, env.stopOk), ToSet(f.inited);
    var log1 := StopAll(f.inited, env.stopOk, f.log);
    FilterDistinct(f.order, live);
    StopAllLedger(f.inited, env.stopOk, f.log, live, f.parts);
    assert live - (live * env.stopOk) == failed;
    AllPartsListed(f.parts);
    ClosePartsLedger(CLOSE_ORDER, f.parts, env.closeOk, log1, failed, f.parts);
    assert f.parts - (ToSet(CLOSE_ORDER) * f.parts * env.closeOk) == f.parts - env.closeOk;
    FilterMembers(f.inited, failed);
    assert live * failed == failed;
    FilterTwice(f.order, live, failed);
    var g := StopPass(f, env).0;
    if failed == {} {
      FilterNothing(f.inited, failed);
      FilterNothing(f.order, {});
      assert ToSet<Name>([]) == {};
    }
    assert ToSet(g.inited) == failed;
  }

  lemma AllPartsListed(parts: set<Part>)
    ensures Distinct(CLOSE_ORDER) && Distinct(OPEN_ORDER)
    ensures parts <= ToSet(CLOSE_ORDER)
  {
    forall p | p in parts ensures p in CLOSE_ORDER {
      match p
      case HttpServer => assert CLOSE_ORDER[0] == p;
      case GrpcServer => assert CLOSE_ORDER[1] == p;
      case GrpcClient => assert CLOSE_ORDER[2] == p;
      case Redis => assert CLOSE_ORDER[3] == p;
      case MongoDB => assert CLOSE_ORDER[4] == p;
      case Gorm => assert CLOSE_ORDER[5] == p;
      case Tracing => assert CLOSE_ORDER[6] == p;
      case Logger => assert CLOSE_ORDER[7] == p;
    }
  }

  lemma CloseListsAll(parts: set<Part>, ok: set<Part>)
    ensures parts - (ok * ToSet(CLOSE_ORDER)) == parts - ok
  {
    AllPartsListed(parts);
  }

  lemma {:induction false} InitKeepsInv(f: State, env: InitEnv)
    requires Inv(f)
    ensures Inv(Init(f, env).0)
  {
    if !f.initialized {
      var f0 := f.(stopped := false, initializing := true);
      var p := OpenParts(OPEN_ORDER, env, f0.parts, f0.log);
      var f1 := f0.(parts := p.parts, log := p.log);
      AllPartsListed({});
      OpenPartsLedger(OPEN_ORDER, env, f0.parts, f0.log, ToSet(f.inited));
      if !p.ok {
        StopPassRestores(f1, env.rollback);
      } else {
        var c := InitComponents(f.order, env, f1.inited, f1.log);
        assert [] + f.order == f.order && ToSet<Name>([]) == {};
        InitComponentsLedger(f.order, env, [], f1.log, p.parts);
        InitComponentsOrder([], f.order, env, [], f1.log);
        if !c.ok { StopPassRestores(f1.(inited := c.done, log := c.log), env.rollback); }
      }
    }
  }

  lemma {:induction false} StartKeepsInv(f: State, env: StartEnv)
    requires Inv(f)
    ensures Inv(Start(f, env).0)
  {
    if f.initialized && !f.started {
      var s := StartServers(SERVERS, f.parts, env, f.log);
      StartServersLedger(SERVERS, f.parts, env, f.log, ToSet(f.inited));
      if !s.ok {
        StopPassRestores(f.(log := s.log), env.rollback);
      } else {
        StartComponentsLedger(f.inited, env, s.log, ToSet(f.inited), f.parts);
        var c := StartComponents(f.inited, env, s.log);
        if !c.ok { StopPassRestores(f.(log := c.log), env.rollback); }
      }
    }
  }

  lemma RegisterKeepsInv(f: State, name: Name)
    requires Inv(f)
    ensures Inv(Register(f, name).0)
  {
    if Register(f, name).1 { FilterNothing(f.order + [name], {}); assert ToSet<Name>([]) == {}; }
  }

  // ---------------------------------------------------------------- runs

  datatype Event =
    | DoRegister(name: Name)
    | DoInit(init: InitEnv)
    | DoStart(start: StartEnv)
    | DoStop(stop: StopEnv)

  ghost function Step(f: State, e: Event): State {
    match e
    case DoRegister(name) => Register(f, name).0
    case DoInit(env) => Init(f, env).0
    case DoStart(env) => Start(f, env).0
    case DoStop(env) => Stop(f, env).0
  }

  ghost function Run(es: seq<Event>): State {
    if |es| == 0 then FRESH else Step(Run(es[..|es| - 1]), es[|es| - 1])
  }

  lemma {:induction false} InvAlways(es: seq<Event>)
    ensures Inv(Run(es))
  {
    if |es| == 0 {
      assert ToSet<Name>([]) == {};
    } else {
      var f := Run(es[..|es| - 1]);
      InvAlways(es[..|es| - 1]);
      match es[|es| - 1]
      case DoRegister(name) => RegisterKeepsInv(f, name);
      case DoInit(env) => InitKeepsInv(f, env);
      case DoStart(env) => StartKeepsInv(f, env);
      case DoStop(env) => if !f.stopped && Running(f) { StopPassRestores(f, env); }
    }
  }

  /**
   Conservation over every run: each component's successful Inits exceed its successful Stops by
   one exactly when it is recorded for stopping, by none otherwise; the record is the duplicate-free
   subsequence of the registration order; the same holds of the built-in parts; and no callback was
   ever made out of phase.
  */
  lemma {:induction false} Conservation(es: seq<Event>, n: Name, p: Part)
    ensures var f := Run(es);
      && Balance(f.log, n) == (if n in f.inited then 1 else 0)
      && PartBalance(f.log, p) == (if p in f.parts then 1 else 0)
      && f.inited == Filter(f.order, ToSet(f.inited)) && Distinct(f.order) && Distinct(f.inited)
      && InPhase(f.log)
  {
    InvAlways(es);
    FilterDistinct(Run(es).order, ToSet(Run(es).inited));
    assert n in ToSet(Run(es).inited) <==> n in Run(es).inited;
  }

  /** In phase means that at every moment of a run each component is up at most once. */
  lemma {:induction false} AtMostOnceUp(log: seq<Call>, n: Name, k: nat)
    requires InPhase(log) && k <= |log|
    ensures 0 <= Balance(log[..k], n) <= 1
  {
    if k < |log| {
      assert log[..|log| - 1][..k] == log[..k];
      AtMostOnceUp(log[..|log| - 1], n, k);
    } else {
      assert log[..k] == log;
      if |log| > 0 {
        assert log[..|log| - 1][..|log| - 1] == log[..|log| - 1];
        AtMostOnceUp(log[..|log| - 1], n, |log| - 1);
      }
    }
  }

  /** One stop call per component, the last initialised first. */
  ghost function ReverseStops(names: seq<Name>, ok: set<Name>): (r: seq<Call>)
    ensures |r| == |names|
  {
    seq(|names|, k requires 0 <= k < |names| => CompStop(names[|names| - 1 - k], names[|names| - 1 - k] in ok))
  }

  /** A stop pass visits the recorded components in exact reverse order, each exactly once. */
  lemma {:induction false} StopVisitsInReverse(names: seq<Name>, ok: set<Name>, log: seq<Call>)
    ensures StopAll(names, ok, log) == log + ReverseStops(names, ok)
    decreases |names|
  {
    if |names| > 0 {
      var init, last := names[..|names| - 1], names[|names| - 1];
      var call := CompStop(last, last in ok);
      StopVisitsInReverse(init, ok, log + [call]);
      assert ReverseStops(names, ok) == [call] + ReverseStops(init, ok);
    }
  }

  /** Stop can be retried until it succeeds; success takes everything down and is then a no-op. */
  lemma {:induction false} StopIsRetryable(es: seq<Event>, env: StopEnv, again: StopEnv, n: Name, p: Part)
    requires ToSet(Run(es).inited) <= env.stopOk && Run(es).parts <= env.closeOk
    ensures var f := Stop(Run(es), env).0;
      && Stop(Run(es), env).1
      && Balance(f.log, n) == 0 && PartBalance(f.log, p) == 0
      && !Running(f) && Stop(f, again) == (f, true)
  {
    hide Inv, PartBalance, Balance;
    var es' := es + [DoStop(env)];
    assert es'[..|es|] == es;
    InvAlways(es);
    Conservation(es', n, p);
    var f := Run(es);
    assert forall m | m in f.inited :: m in ToSet(f.inited);
    assert Failed(f.inited, env.stopOk) == {};
  }

  // ---------------------------------------------------------------- the framework object

  class LifecycleManager {
    var componentOrder: seq<Name>
    var initializedComponentOrder: seq<Name>
    var initializing: bool
    var stopping: bool
    var initialized: bool
    var started: bool
    var stopped: bool
    var parts: set<Part>
    ghost var log: seq<Call>

    ghost function View(): State
      reads this
    {
      State(componentOrder, initializedComponentOrder, initializing, initialized, started, stopped, parts, log)
    }

    constructor ()
      ensures View() == FRESH && !stopping
    {
      componentOrder, initializedComponentOrder := [], [];
      initializing, stopping, initialized, started, stopped := false, false, false, false, false;
      parts, log := {}, [];
    }

    method RegisterComponent(name: Name) returns (ok: bool)
      requires !stopping
      modifies this
      ensures (View(), ok) == Register(old(View()), name) && !stopping
    {
      if name == "" || name in componentOrder {
        return false;
      }
      if initializing || initialized || started || stopping {
        return false;
      }
      componentOrder := componentOrder + [name];
      return true;
    }

    /** Opens the configured built-in parts in order, up to the first failure. */
    method OpenBuiltins(env: InitEnv) returns (ok: bool)
      modifies this`parts, this`log
      ensures Opened(parts, log, ok) == OpenParts(OPEN_ORDER, env, old(parts), old(log))
    {
      var i := 0;
      while i < |OPEN_ORDER|
        invariant 0 <= i <= |OPEN_ORDER|
        invariant OpenParts(OPEN_ORDER, env, old(parts), old(log)) == OpenParts(OPEN_ORDER[i..], env, parts, log)
      {
        var p := OPEN_ORDER[i];
        assert OPEN_ORDER[i..][1..] == OPEN_ORDER[i + 1..];
        if p in env.configured {
          log := log + [PartOpen(p, p in env.openOk)];
          if p !in env.openOk {
            return false;
          }
          parts := parts + {p};
        }
        i := i + 1;
      }
      return true;
    }

    /** Initialises the enabled components in registration order, up to the first failure. */
    method InitRegistered(env: InitEnv) returns (ok: bool)
      modifies this`initializedComponentOrder, this`log
      ensures Inited(initializedComponentOrder, log, ok)
        == InitComponents(componentOrder, env, old(initializedComponentOrder), old(log))
    {
      var i := 0;
      while i < |componentOrder|
        invariant 0 <= i <= |componentOrder|
        invariant InitComponents(componentOrder, env, old(initializedComponentOrder), old(log))
          == InitComponents(componentOrder[i..], env, initializedComponentOrder, log)
      {
        var name := componentOrder[i];
        assert componentOrder[i..][1..] == componentOrder[i + 1..];
        if name in env.enabled {
          log := log + [CompInit(name, name in env.initOk)];
          if name !in env.initOk {
            return false;
          }
          initializedComponentOrder := initializedComponentOrder + [name];
        }
        i := i + 1;
      }
      return true;
    }

    method InitAll(env: InitEnv) returns (ok: bool)
      requires !stopping
      modifies this
      ensures (View(), ok) == Init(old(View()), env) && !stopping
    {
      hide OpenParts, InitComponents, StopPass;
      if initialized {
        return false;
      }
      stopped, initializing := false, true;
      ok := OpenBuiltins(env);
      if ok {
        ok := InitRegistered(env);
      }
      if !ok {
        var rolledBack := StopAllParts(env.rollback);
        initializing := false;
        return false;
      }
      initialized, initializing := true, false;
    }

    method StartAll(env: StartEnv) returns (ok: bool)
      requires !stopping
      modifies this
      ensures (View(), ok) == Start(old(View()), env) && !stopping
    {
      hide StopPass;
      if !initialized || started {
        return false;
      }
      ghost var f0 := View();
      var i := 0;
      while i < |SERVERS|
        invariant 0 <= i <= |SERVERS|
        invariant View() == f0.(log := log) && !stopping
        invariant StartServers(SERVERS, f0.parts, env, f0.log) == StartServers(SERVERS[i..], f0.parts, env, log)
      {
        var p := SERVERS[i];
        assert SERVERS[i..][1..] == SERVERS[i + 1..];
        if p in parts {
          log := log + [PartStart(p, p in env.serverOk)];
          if p !in env.serverOk {
            var rolledBack := StopAllParts(env.rollback);
            return false;
          }
        }
        i := i + 1;
      }
      ghost var log1 := log;
      var components := initializedComponentOrder;
      i := 0;
      while i < |components|
        invariant 0 <= i <= |components|
        invariant View() == f0.(log := log) && !stopping
        invariant StartComponents(components, env, log1) == StartComponents(components[i..], env, log)
      {
        var name := components[i];
        assert components[i..][1..] == components[i + 1..];
        if name in env.enabled {
          log := log + [CompStart(name, name in env.startOk)];
          if name !in env.startOk {
            var rolledBack := StopAllParts(env.rollback);
            return false;
          }
        }
        i := i + 1;
      }
      started := true;
      return true;
    }

    /** Stops the components in reverse, carrying on past failures. */
    method StopComponents(components: seq<Name>, stopOk: set<Name>) returns (failed: set<Name>)
      modifies this`log
      ensures log == StopAll(components, stopOk, old(log))
      ensures failed == Failed(components, stopOk)
    {
      failed := {};
      var i := |components|;
      assert components[..i] == components;
      while i > 0
        invariant 0 <= i <= |components|
        invariant StopAll(components, stopOk, old(log)) == StopAll(components[..i], stopOk, log)
        invariant failed == Failed(components[i..], stopOk)
      {
        i := i - 1;
        var name := components[i];
        assert components[..i + 1][..i] == components[..i];
        assert components[i..] == [name] + components[i + 1..];
        log := log + [CompStop(name, name in stopOk)];
        if name !in stopOk {
          failed := failed + {name};
        }
      }
      assert components[0..] == components;
    }

    /** Closes the built-in parts in use, in their own fixed order; the rest stay open. */
    method CloseBuiltins(todo: seq<Part>, closeOk: set<Part>)
      modifies this`parts, this`log
      ensures log == CloseParts(todo, old(parts), closeOk, old(log))
      ensures parts == old(parts) - (closeOk * ToSet(todo))
    {
      var used := parts;
      var j := 0;
      assert todo[0..] == todo;
      while j < |todo|
        invariant 0 <= j <= |todo|
        invariant CloseParts(todo, used, closeOk, old(log)) == CloseParts(todo[j..], used, closeOk, log)
        invariant parts == used - (closeOk * ToSet(todo[..j]))
      {
        var p := todo[j];
        assert todo[j..][1..] == todo[j + 1..];
        assert todo[..j + 1] == todo[..j] + [p];
        assert ToSet(todo[..j + 1]) == ToSet(todo[..j]) + {p};
        if p in used {
          log := log + [PartClose(p, p in closeOk)];
          if p in closeOk {
            parts := parts - {p};
          }
        }
        j := j + 1;
      }
      assert todo[..j] == todo;
    }

    method Remaining(components: seq<Name>, failed: set<Name>) returns (remaining: seq<Name>)
      ensures remaining == Filter(components, failed)
    {
      remaining := [];
      var k := 0;
      while k < |components|
        invariant 0 <= k <= |components|
        invariant remaining == Filter(components[..k], failed)
      {
        assert components[..k + 1][..k] == components[..k];
        if components[k] in failed {
          remaining := remaining + [components[k]];
        }
        k := k + 1;
      }
      assert components[..k] == components;
    }

    /** Both Stop and the rollbacks of Init and Start. */
    method StopAllParts(env: StopEnv) returns (ok: bool)
      requires !stopping
      modifies this
      ensures (View(), ok) == StopPass(old(View()), env) && !stopping
    {
      hide StopAll, CloseParts, Filter, Failed;
      if stopped || (!initializing && !initialized && !started) {
        return true;
      }
      var components := initializedComponentOrder;
      stopping := true;
      var failedComponents := StopComponents(components, env.stopOk);
      CloseBuiltins(CLOSE_ORDER, env.closeOk);
      CloseListsAll(old(parts), env.closeOk);
      started, initializing := false, false;
      ok := failedComponents == {} && parts == {};
      if ok {
        initialized, stopped := false, true;
        initializedComponentOrder := [];
      } else {
        initializedComponentOrder := Remaining(components, failedComponents);
        initialized, stopped := true, false;
      }
      stopping := false;
    }
  }
}
