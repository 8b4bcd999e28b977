/**
 What the connection pools of grpc_client.go bring about: which commit publishes its pool, and what
 an undisturbed ConnectAll leaves behind.
*/
module ClientPoolRuns {
  import opened ClientPools

  // ---------------------------------------------------------------- what is published

  predicate Bumps(e: Step) {
    e.CloseClient? || e.CloseAll?
  }

  lemma {:induction false} SameGenerationIff(size: nat, es: seq<Step>, i: nat)
    requires Legal(Start(size), es) && i <= |es|
    ensures Run(Start(size), es).generation == GenerationAt(size, es, i) <==> forall j | i <= j < |es| :: !Bumps(es[j])
  {
    hide Next, Enabled;
    if i < |es| {
      var n := |es| - 1;
      SameGenerationIff(size, es[..n], i);
      GenerationBelow(size, es[..n], i);
      assert es[..n][..i] == es[..i];
      GenerationGrows(Run(Start(size), es[..n]), es[n]);
      assert forall j | i <= j < n :: es[..n][j] == es[j];
    } else {
      assert es[..i] == es;
    }
  }

  /** The services a call under way is, or will be, concerned with. */
  function Concerns(c: Creator): set<Service> {
    match c
    case Sampled(service, _) => {service}
    case Flying(service, _) => {service}
    case Connecting(rest, _, _) => set x | x in rest
    case Building(ForGet, service, _, _) => {service}
    case Building(ForConnect(rest, _), service, _, _) => {service} + set x | x in rest
  }

  ghost predicate CallsRegistered(s: State) {
    forall t | t in s.creators :: Concerns(s.creators[t]) <= s.services
  }

  lemma RegisteredStep(s: State, e: Step)
    requires Enabled(s, e) && CallsRegistered(s)
    ensures CallsRegistered(Next(s, e)) && s.services <= Next(s, e).services
  {
    hide Enabled, Next, Concerns;
    ServicesStay(s, e);
    forall t | t in Next(s, e).creators ensures Concerns(Next(s, e).creators[t]) <= s.services {
      if Global(e) || e.t != t { NotNew(s, e, t); } else { OwnStepConcerns(s, e); }
    }
  }

  lemma NotNew(s: State, e: Step, t: Tid)
    requires Enabled(s, e) && (Global(e) || e.t != t) && t in Next(s, e).creators
    ensures t in s.creators && Next(s, e).creators[t] == s.creators[t]
  {
    CreatorHistory(s, e, t);
    OthersStay(s, e, t);
  }

  lemma ServicesStay(s: State, e: Step)
    requires Enabled(s, e)
    ensures s.services <= Next(s, e).services
  {
    hide HasUsable, FoundOk, Led, Emptied, Without, Grown, EmptiedAll, WithoutAll, Publishes;
  }

  lemma OwnStepConcerns(s: State, e: Step)
    requires Enabled(s, e) && CallsRegistered(s) && !Global(e) && e.t in Next(s, e).creators
    ensures Concerns(Next(s, e).creators[e.t]) <= s.services
  {
    hide HasUsable, FoundOk, Led, ClosePool, GrowPool, CommitPool;
    if e.Commit? { CommitPoolFrame(s, s.creators[e.t], e.found); }
    if e.Fail? || e.Grow? { PoolStepFrame(s, s.creators[e.t].pool); }
  }

  lemma {:induction false} CallsRegisteredAlways(size: nat, es: seq<Step>)
    requires Legal(Start(size), es)
    ensures CallsRegistered(Run(Start(size), es))
  {
    if |es| > 0 {
      hide Next, Enabled, CallsRegistered;
      CallsRegisteredAlways(size, es[..|es| - 1]);
      RegisteredStep(Run(Start(size), es[..|es| - 1]), es[|es| - 1]);
    }
  }

  /** The entry is this pool, with all its connections, each of them open. */
  ghost predicate PublishedWhole(s: State, x: Service, p: PoolId) {
    && x in s.published && s.published[x] == p < |s.pools| && |s.pools[p].clients| == s.size
    && forall c | c in s.pools[p].clients :: c in s.open && s.open[c] == p
  }

  lemma CommitResult(s: State, t: Tid, found: bool)
    requires Inv(s) && Enabled(s, Commit(t, found)) && s.creators[t].service in s.services
    ensures var c, s' := s.creators[t], Next(s, Commit(t, found));
      if s.generation == c.generation && (if c.job.ForGet? then !found else c.service !in s.published) then
        PublishedWhole(s', c.service, c.pool) && forall x | x != c.service && x in s.published :: x in s'.published && s'.published[x] == s.published[x]
      else
        s'.published == s.published && c.pool < |s'.pools| && s'.pools[c.pool].clients == []
  {
  }

  /**
   Over every run: the commit of a call that has built its pool publishes that pool, whole, if and
   only if no CloseClient or CloseAll came since the call sampled the generation and, for a
   ConnectAll, the service has no entry, for a GetClient, none with a usable connection.
  */
  lemma {:induction false} CommitPublishesIff(size: nat, es: seq<Step>, t: Tid, found: bool) returns (i: nat)
    requires Legal(Start(size), es) && Enabled(Run(Start(size), es), Commit(t, found))
    ensures i < |es| && Samples(es[i], t) && forall j | i < j < |es| :: !Samples(es[j], t)
    ensures var s := Run(Start(size), es);
      var c, s' := s.creators[t], Next(s, Commit(t, found));
      if (forall j | i <= j < |es| :: !Bumps(es[j])) && (if c.job.ForGet? then !found else c.service !in s.published) then
        PublishedWhole(s', c.service, c.pool)
      else
        s'.published == s.published && c.pool < |s'.pools| && s'.pools[c.pool].clients == []
  {
    hide Next, Inv, PublishedWhole, Run, Bumps, Legal, GenerationAt;
    i := SampledAt(size, es, t);
    InvAlways(size, es);
    CallsRegisteredAlways(size, es);
    SameGenerationIff(size, es, i);
    SizeIsFixed(size, es);
    CommitResult(Run(Start(size), es), t, found);
  }

  /** What the second look of a flight comes to. */
  lemma RecheckResult(s: State, t: Tid, found: bool)
    requires Enabled(s, Recheck(t, found)) && s.creators[t].service in s.services
    ensures var c, s' := s.creators[t], Next(s, Recheck(t, found));
      if s.generation == c.generation && !found then
        s'.pools == s.pools + [Pool(c.service, [], t, c.generation)]
        && t in s'.creators && s'.creators[t] == Building(ForGet, c.service, c.generation, |s.pools|)
      else s' == Leave(s, t)
  {
  }

  /**
   Over every run: a GetClient that leads its flight builds a pool if and only if its second look
   finds nothing usable and no CloseClient or CloseAll came since it sampled the generation;
   otherwise it ends there.
  */
  lemma {:induction false} FlightBuildsIff(size: nat, es: seq<Step>, t: Tid, found: bool) returns (i: nat)
    requires Legal(Start(size), es) && Enabled(Run(Start(size), es), Recheck(t, found))
    ensures i < |es| && Samples(es[i], t) && forall j | i < j < |es| :: !Samples(es[j], t)
    ensures var s := Run(Start(size), es);
      var s' := Next(s, Recheck(t, found));
      if !found && (forall j | i <= j < |es| :: !Bumps(es[j])) then
        |s'.pools| == |s.pools| + 1 && t in s'.creators && s'.creators[t].Building? && s'.creators[t].pool == |s.pools|
      else
        s'.pools == s.pools && t !in s'.creators
  {
    hide Next, Run, Bumps, Legal, GenerationAt;
    i := SampledAt(size, es, t);
    CallsRegisteredAlways(size, es);
    SameGenerationIff(size, es, i);
    RecheckResult(Run(Start(size), es), t, found);
  }

  lemma {:induction false} SizeIsFixed(size: nat, es: seq<Step>)
    requires Legal(Start(size), es)
    ensures Run(Start(size), es).size == size
  {
    if |es| > 0 {
      hide Next, Enabled;
      SizeIsFixed(size, es[..|es| - 1]);
      SizeStep(Run(Start(size), es[..|es| - 1]), es[|es| - 1]);
    }
  }

  lemma SizeStep(s: State, e: Step)
    requires Enabled(s, e)
    ensures Next(s, e).size == s.size
  {
    hide HasUsable, FoundOk, Led, Emptied, Without, Grown, EmptiedAll, WithoutAll, Publishes;
  }

  // ---------------------------------------------------------------- a whole ConnectAll

  /** The services whose building failed in the call of t under way. */
  ghost function FailedFor(size: nat, es: seq<Step>, t: Tid): set<Service> {
    if |es| == 0 || Samples(es[|es| - 1], t) then {}
    else
      var s, e := Run(Start(size), es[..|es| - 1]), es[|es| - 1];
      FailedFor(size, es[..|es| - 1], t) + (if e == Fail(t) && t in s.creators then Working(s.creators[t]) else {})
  }

  /** The service a builder is building for. */
  function Working(c: Creator): set<Service> {
    if c.Building? then {c.service} else {}
  }

  /**
   How far a ConnectAll has come: whatever was on its list is published, or lies ahead, or is being
   built, or its building has failed.
  */
  ghost predicate Covered(s: State, t: Tid, order: seq<Service>, failed: set<Service>) {
    && t in s.creators && Connects(s.creators[t]) && s.creators[t].generation == s.generation
    && Listed(s.creators[t]) <= s.published.Keys
    && forall x | x in order :: x in s.published || x in Ahead(s.creators[t]) || x in Working(s.creators[t]) || x in failed
  }

  lemma CoveredBegins(s: State, t: Tid, order: seq<Service>)
    requires Enabled(s, ConnectBegin(t, order))
    ensures Covered(Next(s, ConnectBegin(t, order)), t, order, {})
  {
  }

  /** Without a reset no entry is taken away. */
  lemma EntriesRemain(s: State, e: Step)
    requires Enabled(s, e) && !Bumps(e)
    ensures s.published.Keys <= Next(s, e).published.Keys
  {
    hide HasUsable, FoundOk, Led, ClosePool, GrowPool, CommitPool, Finish;
    match e
    case Commit(t, found) => CommitEntries(s, t, found);
    case Fail(t) => FinishEntries(s, ClosePool(s, s.creators[t].pool), t);
    case Grow(t) => GrowEntries(s, s.creators[t].pool);
    case _ =>
  }

  lemma OwnStepCovers(s: State, e: Step, t: Tid, order: seq<Service>, failed: set<Service>)
    requires Inv(s) && CallsRegistered(s) && Enabled(s, e) && !Global(e) && e.t == t && t in Next(s, e).creators
    requires Covered(s, t, order, failed)
    ensures Covered(Next(s, e), t, order, failed + (if e.Fail? then Working(s.creators[t]) else {}))
  {
    hide Inv, HasUsable, FoundOk, Led, Emptied, Without, Grown;
  }

  lemma OtherStepCovers(s: State, e: Step, t: Tid, order: seq<Service>, failed: set<Service>)
    requires Enabled(s, e) && !Bumps(e) && (Global(e) || e.t != t) && Covered(s, t, order, failed)
    ensures Covered(Next(s, e), t, order, failed)
  {
    hide Next, Enabled, Listed, Ahead, Working, Connects;
    EntriesRemain(s, e);
    OthersStay(s, e, t);
    GenerationGrows(s, e);
  }

  /** A step of one call leaves the other calls where they are. */
  lemma OthersStay(s: State, e: Step, t: Tid)
    requires Enabled(s, e) && (Global(e) || e.t != t) && t in s.creators
    ensures t in Next(s, e).creators && Next(s, e).creators[t] == s.creators[t]
  {
    hide HasUsable, FoundOk, Led, ClosePool, GrowPool, CommitPool, CloseService, CloseEverything;
    if Global(e) { GlobalCreators(s, e); }
    if e.Commit? { CommitPoolFrame(s, s.creators[e.t], e.found); }
    if e.Fail? { PoolStepFrame(s, s.creators[e.t].pool); }
    if e.Grow? { PoolStepFrame(s, s.creators[e.t].pool); }
  }

  lemma PoolStepFrame(s: State, p: PoolId)
    requires p < |s.pools|
    ensures ClosePool(s, p).creators == s.creators && GrowPool(s, p).creators == s.creators
    ensures ClosePool(s, p).services == s.services && GrowPool(s, p).services == s.services
  {
  }

  lemma {:induction false} CoveredAlways(size: nat, es: seq<Step>, i: nat, t: Tid)
    requires Legal(Start(size), es) && i < |es| && es[i].ConnectBegin? && es[i].t == t
    requires forall j | i < j < |es| :: !Bumps(es[j]) && !Samples(es[j], t)
    requires t in Run(Start(size), es).creators
    ensures Covered(Run(Start(size), es), t, es[i].order, FailedFor(size, es, t))
  {
    hide Next, Enabled, Inv, Covered, CallsRegistered, Working;
    var n := |es| - 1;
    var s, e := Run(Start(size), es[..n]), es[n];
    if i == n {
      CoveredBegins(s, t, es[i].order);
    } else {
      CreatorHistory(s, e, t);
      CoveredAlways(size, es[..n], i, t);
      InvAlways(size, es[..n]);
      CallsRegisteredAlways(size, es[..n]);
      if !Global(e) && e.t == t {
        OwnStepCovers(s, e, t, es[i].order, FailedFor(size, es[..n], t));
        assert e.Fail? ==> e == Fail(t);
      } else {
        OtherStepCovers(s, e, t, es[i].order, FailedFor(size, es[..n], t));
        assert e != Fail(t);
      }
      assert FailedFor(size, es[..n], t) + {} == FailedFor(size, es[..n], t);
    }
  }

  lemma OwnStepGoesOn(s: State, e: Step, t: Tid)
    requires Enabled(s, e) && !Global(e) && e.t == t && t in s.creators && Connects(s.creators[t])
    ensures t in Next(s, e).creators && Connects(Next(s, e).creators[t]) <==> !e.ConnectEnd?
  {
    hide HasUsable, FoundOk, Led, ClosePool, GrowPool, CommitPool;
    if e.Commit? { CommitPoolFrame(s, s.creators[e.t], e.found); }
    if e.Fail? || e.Grow? { PoolStepFrame(s, s.creators[e.t].pool); }
  }

  /** Over every run: nothing but its own end, with nothing left on its list, ends a ConnectAll. */
  lemma {:induction false} ConnectAllGoesOn(size: nat, es: seq<Step>, i: nat, t: Tid)
    requires Legal(Start(size), es) && i < |es| && es[i].ConnectBegin? && es[i].t == t
    requires forall j | i < j < |es| :: es[j] != ConnectEnd(t)
    ensures t in Run(Start(size), es).creators && Connects(Run(Start(size), es).creators[t])
  {
    hide Next, Enabled, Connects;
    var n := |es| - 1;
    var s, e := Run(Start(size), es[..n]), es[n];
    if i == n {
      CoveredBegins(s, t, es[i].order);
    } else {
      ConnectAllGoesOn(size, es[..n], i, t);
      if !Global(e) && e.t == t { OwnStepGoesOn(s, e, t); } else { OthersStay(s, e, t); }
    }
  }

  /**
   Over every run: a ConnectAll that no CloseClient or CloseAll disturbed ends with every service of
   its list published, but for those whose connections it failed to make.
  */
  lemma {:induction false} ConnectAllConnects(size: nat, es: seq<Step>, i: nat, t: Tid, x: Service)
    requires Legal(Start(size), es) && i < |es| && es[i].ConnectBegin? && es[i].t == t
    requires forall j | i < j < |es| :: !Bumps(es[j]) && !Samples(es[j], t)
    requires Enabled(Run(Start(size), es), ConnectEnd(t))
    requires x in es[i].order && x !in FailedFor(size, es, t)
    ensures x in Run(Start(size), es).published
  {
    CoveredAlways(size, es, i, t);
  }

  lemma {:induction false} StockedSince(size: nat, es: seq<Step>, i: nat)
    requires size >= 1 && Legal(Start(size), es) && i <= |es| && AllStocked(Run(Start(size), es[..i]))
    requires forall j, x | i <= j < |es| :: !Hollows(Run(Start(size), es[..j]), es[j], x)
    ensures AllStocked(Run(Start(size), es))
  {
    if i == |es| {
      assert es[..i] == es;
    } else {
      hide Next, Enabled, Inv, AllStocked, Hollows;
      var n := |es| - 1;
      assert es[..n][..i] == es[..i];
      forall j, x | i <= j < n ensures !Hollows(Run(Start(size), es[..n][..j]), es[..n][j], x) {
        assert es[..n][..j] == es[..j];
        assert !Hollows(Run(Start(size), es[..j]), es[j], x);
      }
      StockedSince(size, es[..n], i);
      InvAlways(size, es[..n]);
      SizeIsFixed(size, es[..n]);
      EntriesRegistered(size, es[..n]);
      var s, e := Run(Start(size), es[..n]), es[n];
      assert forall x :: !Hollows(s, e, x);
      StepStocks(s, e);
    }
  }

  lemma {:induction false} EntriesRegistered(size: nat, es: seq<Step>)
    requires Legal(Start(size), es)
    ensures Run(Start(size), es).published.Keys <= Run(Start(size), es).services
  {
    if |es| > 0 {
      hide Next, Enabled;
      EntriesRegistered(size, es[..|es| - 1]);
      EntryStep(Run(Start(size), es[..|es| - 1]), es[|es| - 1]);
    }
  }

  lemma EntryStep(s: State, e: Step)
    requires Enabled(s, e) && s.published.Keys <= s.services
    ensures Next(s, e).published.Keys <= Next(s, e).services
  {
    hide HasUsable, FoundOk, Led, ClosePool, GrowPool, CommitPool, Finish, CloseService, CloseEverything;
    match e
    case Commit(t, found) => CommitEntries(s, t, found);
    case Fail(t) => FinishEntries(s, ClosePool(s, s.creators[t].pool), t);
    case Grow(t) => GrowEntries(s, s.creators[t].pool);
    case CloseClient(service, failed) => CloseEntries(s, service, failed);
    case CloseAll => CloseEntries(s, "", false);
    case _ =>
  }

  lemma FinishEntries(s: State, v: State, t: Tid)
    requires t in s.creators && s.creators[t].Building?
    ensures Finish(v, t, s.creators[t]).published == v.published && Finish(v, t, s.creators[t]).services == v.services
    ensures s.creators[t].pool < |s.pools| ==>
      ClosePool(s, s.creators[t].pool).published == s.published && ClosePool(s, s.creators[t].pool).services == s.services
  {
  }

  lemma GrowEntries(s: State, p: PoolId)
    requires p < |s.pools|
    ensures GrowPool(s, p).published == s.published && GrowPool(s, p).services == s.services
  {
  }

  lemma CommitEntries(s: State, t: Tid, found: bool)
    requires Enabled(s, Commit(t, found))
    ensures s.published.Keys <= Next(s, Commit(t, found)).published.Keys
    ensures s.published.Keys <= s.services ==> Next(s, Commit(t, found)).published.Keys <= Next(s, Commit(t, found)).services
  {
    hide HasUsable, FoundOk, Emptied, Without, Finish;
    FinishEntries(s, CommitPool(s, s.creators[t], found), t);
  }

  lemma CloseEntries(s: State, service: Service, failed: bool)
    requires s.published.Keys <= s.services
    ensures CloseService(s, service, failed).published.Keys <= CloseService(s, service, failed).services
    ensures CloseEverything(s).published.Keys <= CloseEverything(s).services
  {
    hide Emptied, Without, EmptiedAll, WithoutAll;
  }

  /** ... and with connections in all of them, when the entries had theirs before and none was emptied meanwhile. */
  lemma {:induction false} ConnectAllServes(size: nat, es: seq<Step>, i: nat, t: Tid, x: Service)
    requires size >= 1 && Legal(Start(size), es) && i < |es| && es[i].ConnectBegin? && es[i].t == t
    requires forall j | i < j < |es| :: !Bumps(es[j]) && !Samples(es[j], t)
    requires Enabled(Run(Start(size), es), ConnectEnd(t))
    requires x in es[i].order && x !in FailedFor(size, es, t)
    requires AllStocked(Run(Start(size), es[..i]))
    requires forall j, y | i <= j < |es| :: !Hollows(Run(Start(size), es[..j]), es[j], y)
    ensures Serves(Run(Start(size), es), x)
  {
    ConnectAllConnects(size, es, i, t, x);
    StockedSince(size, es, i);
  }
}
