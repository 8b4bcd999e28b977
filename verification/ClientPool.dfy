/**
 The connection pools of grpc_client.go under interleaving: pools are built outside the manager's
 lock by GetClient and ConnectAll and committed under it, while CloseClient and CloseAll bump the
 generation and close what is published. Each section under the lock is one step, as is each
 connection made by a builder.
*/
module ClientPools {
  type Service = string
  type Tid = nat
  type ClientId = nat
  type PoolId = nat

  /** maker and birth are for the proof only: who built the pool, and the generation that call had sampled. */
  datatype Pool = Pool(service: Service, clients: seq<ClientId>, maker: Tid, birth: nat)

  /** What a builder goes on to do: a GetClient returns, a ConnectAll turns to the next service. */
  datatype Job = ForGet | ForConnect(rest: seq<Service>, existing: set<Service>)

  datatype Creator =
    | Sampled(service: Service, generation: nat)      // GetClient, before it joins or leads a flight
    | Flying(service: Service, generation: nat)       // GetClient leading its flight, before the second look
    | Connecting(rest: seq<Service>, existing: set<Service>, generation: nat)
    | Building(job: Job, service: Service, generation: nat, pool: PoolId)

  datatype State = State(
    size: nat,                           // connections per pool
    services: set<Service>,
    published: map<Service, PoolId>,     // clientPools
    generation: nat,
    pools: seq<Pool>,                    // every pool object ever made
    creators: map<Tid, Creator>,
    open: map<ClientId, PoolId>,         // connections not closed yet, and their pool
    usable: set<ClientId>,
    made: nat,                           // connections made so far
    resets: map<Service, nat>,           // generation after the last CloseClient of a service
    allReset: nat)                       // generation after the last CloseAll

  function Start(size: nat): State {
    State(size, {}, map[], 0, [], map[], map[], {}, 0, map[], 0)
  }

  function ResetAt(resets: map<Service, nat>, allReset: nat, service: Service): nat {
    if service in resets && resets[service] > allReset then resets[service] else allReset
  }

  predicate HasUsable(s: State, p: PoolId) {
    p < |s.pools| && exists c :: c in s.pools[p].clients && c in s.usable
  }

  datatype Step =
    | RegisterService(service: Service)
    | GetBegin(t: Tid, service: Service, found: bool)
    | Enter(t: Tid)
    | Recheck(t: Tid, found: bool)
    | ConnectBegin(t: Tid, order: seq<Service>)
    | ConnectNext(t: Tid)
    | ConnectEnd(t: Tid)
    | Grow(t: Tid)
    | Fail(t: Tid)
    | Commit(t: Tid, found: bool)
    | CloseClient(service: Service, failed: bool)
    | CloseAll
    | Lose(client: ClientId)             // a connection becomes unusable by itself

  predicate Global(e: Step) {
    e.RegisterService? || e.CloseClient? || e.CloseAll? || e.Lose?
  }

  /** Another GetClient leads a flight for the same service and generation. */
  ghost predicate Led(s: State, service: Service, generation: nat) {
    exists t :: t in s.creators && InFlight(s.creators[t], service, generation)
  }

  predicate InFlight(c: Creator, service: Service, generation: nat) {
    (c.Flying? || (c.Building? && c.job.ForGet?)) && c.service == service && c.generation == generation
  }

  /** found says that the pool's getClient returned a client, which then was usable. */
  predicate FoundOk(s: State, service: Service, found: bool) {
    found ==> service in s.published && HasUsable(s, s.published[service])
  }

  ghost predicate Enabled(s: State, e: Step) {
    if Global(e) then true
    else if e.GetBegin? then e.t !in s.creators && FoundOk(s, e.service, e.found)
    else if e.ConnectBegin? then e.t !in s.creators && forall x :: x in e.order <==> x in s.services
    else if e.t !in s.creators then false
    else
      var c := s.creators[e.t];
      match e
      case Enter(_) => c.Sampled?
      case Recheck(_, found) => c.Flying? && FoundOk(s, c.service, found)
      case ConnectNext(_) => c.Connecting? && |c.rest| > 0
      case ConnectEnd(_) => c.Connecting? && c.rest == []
      case Grow(_) => c.Building? && c.pool < |s.pools| && |s.pools[c.pool].clients| < s.size
      case Fail(_) => c.Building? && c.pool < |s.pools| && |s.pools[c.pool].clients| < s.size
      case Commit(_, found) =>
        c.Building? && c.pool < |s.pools| && |s.pools[c.pool].clients| == s.size && FoundOk(s, c.service, found)
      case _ => false
  }

  // ---------------------------------------------------------------- effects

  function Emptied(pools: seq<Pool>, p: PoolId): seq<Pool>
    requires p < |pools|
  {
    pools[p := pools[p].(clients := [])]
  }

  function Without(open: map<ClientId, PoolId>, p: PoolId): map<ClientId, PoolId> {
    map c | c in open && open[c] != p :: open[c]
  }

  /** Closing a pool closes every connection in it, errors or not, and empties it. */
  function ClosePool(s: State, p: PoolId): State
    requires p < |s.pools|
  {
    s.(pools := Emptied(s.pools, p), open := Without(s.open, p))
  }

  function SetCreator(s: State, t: Tid, c: Creator): State {
    s.(creators := s.creators[t := c])
  }

  function Leave(s: State, t: Tid): State {
    s.(creators := s.creators - {t})
  }

  function Begin(s: State, t: Tid, job: Job, service: Service, generation: nat): State {
    SetCreator(s, t, Building(job, service, generation, |s.pools|)).(pools := s.pools + [Pool(service, [], t, generation)])
  }

  /** What a builder does once its pool is published or closed. */
  function Finish(s: State, t: Tid, c: Creator): State
    requires c.Building?
  {
    match c.job
    case ForGet => Leave(s, t)
    case ForConnect(rest, existing) => SetCreator(s, t, Connecting(rest, existing, c.generation))
  }

  function Grown(pools: seq<Pool>, p: PoolId, client: ClientId): seq<Pool>
    requires p < |pools|
  {
    pools[p := pools[p].(clients := pools[p].clients + [client])]
  }

  function GrowPool(s: State, p: PoolId): State
    requires p < |s.pools|
  {
    s.(pools := Grown(s.pools, p, s.made), open := s.open[s.made := p], usable := s.usable + {s.made}, made := s.made + 1)
  }

  /** GetClient closes a published pool that has nothing usable before it looks any further. */
  function Discard(s: State, c: Creator, found: bool): State
    requires c.Building?
  {
    if c.job.ForGet? && c.service in s.published && !found && s.published[c.service] < |s.pools|
    then ClosePool(s, s.published[c.service]) else s
  }

  predicate Publishes(s: State, c: Creator, found: bool)
    requires c.Building?
  {
    && (c.service in s.published ==> c.job.ForGet? && !found)
    && c.service in s.services
    && s.generation == c.generation
  }

  function CommitPool(s: State, c: Creator, found: bool): State
    requires c.Building? && c.pool < |s.pools|
  {
    var s1 := Discard(s, c, found);
    if Publishes(s, c, found) then s1.(published := s1.published[c.service := c.pool]) else ClosePool(s1, c.pool)
  }

  /** A pool whose close reported an error stays published, empty. */
  function CloseService(s: State, service: Service, failed: bool): State {
    var s1 := s.(generation := s.generation + 1, resets := s.resets[service := s.generation + 1]);
    if service !in s.published || s.published[service] >= |s.pools| then s1
    else
      var s2 := ClosePool(s1, s.published[service]);
      if failed then s2 else s2.(published := s2.published - {service})
  }

  function EmptiedAll(pools: seq<Pool>, these: set<PoolId>): (r: seq<Pool>)
    ensures |r| == |pools|
    ensures forall i | 0 <= i < |pools| :: r[i] == if i in these then pools[i].(clients := []) else pools[i]
  {
    seq(|pools|, i requires 0 <= i < |pools| => if i in these then pools[i].(clients := []) else pools[i])
  }

  function WithoutAll(open: map<ClientId, PoolId>, these: set<PoolId>): map<ClientId, PoolId> {
    map c | c in open && open[c] !in these :: open[c]
  }

  function CloseEverything(s: State): State {
    s.(generation := s.generation + 1, allReset := s.generation + 1, published := map[],
       pools := EmptiedAll(s.pools, s.published.Values), open := WithoutAll(s.open, s.published.Values))
  }

  ghost function Next(s: State, e: Step): State
    requires Enabled(s, e)
  {
    match e
    case RegisterService(service) => s.(services := s.services + {service})
    case GetBegin(t, service, found) =>
      if found || service !in s.services then s else SetCreator(s, t, Sampled(service, s.generation))
    case Enter(t) =>
      var c := s.creators[t];
      if Led(s, c.service, c.generation) then Leave(s, t) else SetCreator(s, t, Flying(c.service, c.generation))
    case Recheck(t, found) =>
      var c := s.creators[t];
      if found || c.service !in s.services || s.generation != c.generation then Leave(s, t)
      else Begin(s, t, ForGet, c.service, c.generation)
    case ConnectBegin(t, order) => SetCreator(s, t, Connecting(order, s.published.Keys, s.generation))
    case ConnectNext(t) =>
      var c := s.creators[t];
      if c.rest[0] in c.existing then SetCreator(s, t, c.(rest := c.rest[1..]))
      else Begin(s, t, ForConnect(c.rest[1..], c.existing), c.rest[0], c.generation)
    case ConnectEnd(t) => Leave(s, t)
    case Grow(t) => GrowPool(s, s.creators[t].pool)
    case Fail(t) => Finish(ClosePool(s, s.creators[t].pool), t, s.creators[t])
    case Commit(t, found) => Finish(CommitPool(s, s.creators[t], found), t, s.creators[t])
    case CloseClient(service, failed) => CloseService(s, service, failed)
    case CloseAll => CloseEverything(s)
    case Lose(c) => s.(usable := s.usable - {c})
  }

  ghost predicate Legal(s: State, es: seq<Step>) {
    |es| > 0 ==> Legal(s, es[..|es| - 1]) && Enabled(Run(s, es[..|es| - 1]), es[|es| - 1])
  }

  ghost function Run(s: State, es: seq<Step>): State {
    if |es| == 0 then s
    else
      var v, e := Run(s, es[..|es| - 1]), es[|es| - 1];
      if Enabled(v, e) then Next(v, e) else v
  }

  // ---------------------------------------------------------------- invariants

  predicate Holds(creators: map<Tid, Creator>, t: Tid, p: PoolId) {
    t in creators && creators[t].Building? && creators[t].pool == p
  }

  predicate IsPublished(pools: seq<Pool>, published: map<Service, PoolId>, p: PoolId) {
    p < |pools| && pools[p].service in published && published[pools[p].service] == p
  }

  /** Every connection not yet closed is in exactly one pool, once. */
  ghost predicate ClientsOk(pools: seq<Pool>, open: map<ClientId, PoolId>, made: nat) {
    && (forall c | c in open :: c < made && open[c] < |pools| && c in pools[open[c]].clients)
    && (forall p, c | 0 <= p < |pools| && c in pools[p].clients :: c in open && open[c] == p)
    && (forall p, i, j | 0 <= p < |pools| && 0 <= i < j < |pools[p].clients| :: pools[p].clients[i] != pools[p].clients[j])
  }

  ghost predicate BuilderOk(pools: seq<Pool>, published: map<Service, PoolId>, t: Tid, c: Creator) {
    c.Building? ==>
      && c.pool < |pools| && !IsPublished(pools, published, c.pool)
      && pools[c.pool].maker == t && pools[c.pool].service == c.service && pools[c.pool].birth == c.generation
  }

  ghost predicate MapOk(pools: seq<Pool>, published: map<Service, PoolId>) {
    forall x | x in published :: published[x] < |pools| && pools[published[x]].service == x
  }

  ghost predicate Owned(pools: seq<Pool>, published: map<Service, PoolId>, creators: map<Tid, Creator>, p: PoolId)
    requires p < |pools|
  {
    pools[p].clients != [] ==> Holds(creators, pools[p].maker, p) || IsPublished(pools, published, p)
  }

  /** Builders and the published map share no pool; a pool that is neither's is empty. */
  ghost predicate OwnersOk(pools: seq<Pool>, published: map<Service, PoolId>, creators: map<Tid, Creator>) {
    && (forall t | t in creators :: BuilderOk(pools, published, t, creators[t]))
    && MapOk(pools, published)
    && (forall p | 0 <= p < |pools| :: Owned(pools, published, creators, p))
  }

  /** Published connections come from a call that sampled the generation after the last reset. */
  ghost predicate Recent(pools: seq<Pool>, published: map<Service, PoolId>, resets: map<Service, nat>, allReset: nat) {
    forall x | x in published && published[x] < |pools| && pools[published[x]].clients != [] ::
      pools[published[x]].birth >= ResetAt(resets, allReset, x)
  }

  ghost predicate Clocks(pools: seq<Pool>, creators: map<Tid, Creator>, resets: map<Service, nat>, allReset: nat, generation: nat) {
    && allReset <= generation
    && (forall x | x in resets :: resets[x] <= generation)
    && (forall p | 0 <= p < |pools| :: pools[p].birth <= generation)
    && (forall t | t in creators :: creators[t].generation <= generation)
  }

  /** At most one GetClient builds for a service in a generation. */
  ghost predicate FlightsOk(creators: map<Tid, Creator>) {
    forall t, u, x, g | t in creators && u in creators && InFlight(creators[t], x, g) && InFlight(creators[u], x, g) :: t == u
  }

  ghost predicate Inv(s: State) {
    && ClientsOk(s.pools, s.open, s.made)
    && OwnersOk(s.pools, s.published, s.creators)
    && Recent(s.pools, s.published, s.resets, s.allReset)
    && Clocks(s.pools, s.creators, s.resets, s.allReset, s.generation)
    && FlightsOk(s.creators)
  }

  // ---------------------------------------------------------------- connections

  lemma EmptiedClients(pools: seq<Pool>, open: map<ClientId, PoolId>, made: nat, p: PoolId)
    requires ClientsOk(pools, open, made) && p < |pools|
    ensures ClientsOk(Emptied(pools, p), Without(open, p), made)
  {
  }

  lemma NewPoolClients(pools: seq<Pool>, open: map<ClientId, PoolId>, made: nat, pool: Pool)
    requires ClientsOk(pools, open, made) && pool.clients == []
    ensures ClientsOk(pools + [pool], open, made)
  {
    forall p | 0 <= p < |pools| ensures (pools + [pool])[p] == pools[p] {}
  }

  lemma MadeBefore(pools: seq<Pool>, open: map<ClientId, PoolId>, made: nat)
    requires ClientsOk(pools, open, made)
    ensures forall q, c | 0 <= q < |pools| && c in pools[q].clients :: c < made
  {
    forall q, c | 0 <= q < |pools| && c in pools[q].clients ensures c < made {
      assert c in open;
    }
  }

  lemma GrownClients(pools: seq<Pool>, open: map<ClientId, PoolId>, made: nat, p: PoolId)
    requires ClientsOk(pools, open, made) && p < |pools|
    ensures ClientsOk(Grown(pools, p, made), open[made := p], made + 1)
  {
    var after := Grown(pools, p, made);
    MadeBefore(pools, open, made);
    forall c | c in open ensures c in after[open[c]].clients { assert c in pools[open[c]].clients; }
    forall q, i, j | 0 <= q < |pools| && 0 <= i < j < |after[q].clients| ensures after[q].clients[i] != after[q].clients[j] {
      if q == p && j == |pools[p].clients| { assert after[q].clients[i] in pools[p].clients; }
    }
  }

  lemma CloseEverythingClients(s: State)
    requires ClientsOk(s.pools, s.open, s.made)
    ensures ClientsOk(CloseEverything(s).pools, CloseEverything(s).open, s.made)
  {
    AllEmptiedClients(s.pools, s.open, s.made, s.published.Values);
  }

  lemma AllEmptiedClients(pools: seq<Pool>, open: map<ClientId, PoolId>, made: nat, these: set<PoolId>)
    requires ClientsOk(pools, open, made)
    ensures ClientsOk(EmptiedAll(pools, these), WithoutAll(open, these), made)
  {
    hide EmptiedAll;
  }

  // ---------------------------------------------------------------- owners

  lemma EmptiedOwners(pools: seq<Pool>, published: map<Service, PoolId>, creators: map<Tid, Creator>, p: PoolId)
    requires OwnersOk(pools, published, creators) && p < |pools|
    ensures OwnersOk(Emptied(pools, p), published, creators)
  {
    var after := Emptied(pools, p);
    forall q | 0 <= q < |pools| ensures Owned(after, published, creators, q) { assert Owned(pools, published, creators, q); }
    forall t | t in creators ensures BuilderOk(after, published, t, creators[t]) {
      assert BuilderOk(pools, published, t, creators[t]);
    }
  }

  lemma GrownOwners(pools: seq<Pool>, published: map<Service, PoolId>, creators: map<Tid, Creator>, t: Tid, client: ClientId)
    requires OwnersOk(pools, published, creators) && t in creators && creators[t].Building?
    ensures creators[t].pool < |pools|
    ensures OwnersOk(Grown(pools, creators[t].pool, client), published, creators)
  {
    assert BuilderOk(pools, published, t, creators[t]);
    var after := Grown(pools, creators[t].pool, client);
    forall q | 0 <= q < |pools| ensures Owned(after, published, creators, q) { assert Owned(pools, published, creators, q); }
    forall u | u in creators ensures BuilderOk(after, published, u, creators[u]) {
      assert BuilderOk(pools, published, u, creators[u]);
    }
  }

  ghost predicate Free(creators: map<Tid, Creator>, t: Tid) {
    t in creators ==> !creators[t].Building?
  }

  lemma SetOwners(pools: seq<Pool>, published: map<Service, PoolId>, creators: map<Tid, Creator>, t: Tid, c: Creator)
    requires OwnersOk(pools, published, creators) && Free(creators, t) && !c.Building?
    ensures OwnersOk(pools, published, creators[t := c])
  {
    var crew := creators[t := c];
    forall q | 0 <= q < |pools| ensures Owned(pools, published, crew, q) { assert Owned(pools, published, creators, q); }
  }

  lemma LeaveOwners(pools: seq<Pool>, published: map<Service, PoolId>, creators: map<Tid, Creator>, t: Tid)
    requires OwnersOk(pools, published, creators) && Free(creators, t)
    ensures OwnersOk(pools, published, creators - {t})
  {
    var crew := creators - {t};
    forall q | 0 <= q < |pools| ensures Owned(pools, published, crew, q) { assert Owned(pools, published, creators, q); }
  }

  lemma BeginOwners(pools: seq<Pool>, published: map<Service, PoolId>, creators: map<Tid, Creator>, t: Tid, c: Creator)
    requires OwnersOk(pools, published, creators) && Free(creators, t) && c.Building? && c.pool == |pools|
    ensures OwnersOk(pools + [Pool(c.service, [], t, c.generation)], published, creators[t := c])
  {
    var after, crew := pools + [Pool(c.service, [], t, c.generation)], creators[t := c];
    forall q | 0 <= q < |pools| ensures after[q] == pools[q] && Owned(after, published, crew, q) {
      assert Owned(pools, published, creators, q);
    }
    forall u | u in crew ensures BuilderOk(after, published, u, crew[u]) {
      if u != t { assert BuilderOk(pools, published, u, creators[u]); }
    }
  }

  /** A builder lets go of its pool, emptied or just published. */
  lemma FinishOwners(pools: seq<Pool>, before: map<Service, PoolId>, published: map<Service, PoolId>, creators: map<Tid, Creator>,
                     crew: map<Tid, Creator>, t: Tid)
    requires OwnersOk(pools, before, creators) && t in creators && creators[t].Building?
    requires crew == creators - {t} || (t in crew && crew == creators[t := crew[t]] && !crew[t].Building?)
    requires var c := creators[t];
      if published == before then c.pool < |pools| && pools[c.pool].clients == []
      else published == before[c.service := c.pool] && EmptyEntry(pools, before, c.service)
    ensures OwnersOk(pools, published, crew)
  {
    var c := creators[t];
    assert BuilderOk(pools, before, t, c);
    forall q | 0 <= q < |pools| ensures Owned(pools, published, crew, q) {
      assert Owned(pools, before, creators, q);
    }
    forall u | u in crew ensures BuilderOk(pools, published, u, crew[u]) {
      if u != t { assert BuilderOk(pools, before, u, creators[u]); }
    }
  }

  ghost predicate EmptyEntry(pools: seq<Pool>, published: map<Service, PoolId>, service: Service) {
    service in published ==> published[service] < |pools| && pools[published[service]].clients == []
  }

  lemma UnpublishOwners(pools: seq<Pool>, published: map<Service, PoolId>, creators: map<Tid, Creator>, service: Service)
    requires OwnersOk(pools, published, creators) && EmptyEntry(pools, published, service)
    ensures OwnersOk(pools, published - {service}, creators)
  {
    forall q | 0 <= q < |pools| ensures Owned(pools, published - {service}, creators, q) {
      assert Owned(pools, published, creators, q);
    }
    forall u | u in creators ensures BuilderOk(pools, published - {service}, u, creators[u]) {
      assert BuilderOk(pools, published, u, creators[u]);
    }
  }

  lemma CloseEverythingOwners(s: State)
    requires OwnersOk(s.pools, s.published, s.creators)
    ensures OwnersOk(CloseEverything(s).pools, map[], s.creators)
  {
    var after := CloseEverything(s).pools;
    forall q | 0 <= q < |s.pools| ensures Owned(after, map[], s.creators, q) {
      assert Owned(s.pools, s.published, s.creators, q);
    }
    forall u | u in s.creators ensures BuilderOk(after, map[], u, s.creators[u]) {
      assert BuilderOk(s.pools, s.published, u, s.creators[u]);
    }
  }

  // ---------------------------------------------------------------- flights

  lemma SetFlight(creators: map<Tid, Creator>, t: Tid, c: Creator)
    requires FlightsOk(creators)
    requires forall u, x, g | u in creators && u != t && InFlight(c, x, g) :: !InFlight(creators[u], x, g)
    ensures FlightsOk(creators[t := c])
  {
  }

  lemma LeaveFlight(creators: map<Tid, Creator>, t: Tid)
    requires FlightsOk(creators)
    ensures FlightsOk(creators - {t})
  {
  }

  lemma EnterFlight(s: State, t: Tid)
    requires FlightsOk(s.creators) && t in s.creators && s.creators[t].Sampled?
    requires !Led(s, s.creators[t].service, s.creators[t].generation)
    ensures FlightsOk(s.creators[t := Flying(s.creators[t].service, s.creators[t].generation)])
  {
    SetFlight(s.creators, t, Flying(s.creators[t].service, s.creators[t].generation));
  }

  lemma BuildFlight(creators: map<Tid, Creator>, t: Tid, p: PoolId)
    requires FlightsOk(creators) && t in creators && creators[t].Flying?
    ensures FlightsOk(creators[t := Building(ForGet, creators[t].service, creators[t].generation, p)])
  {
    var c := creators[t];
    assert InFlight(c, c.service, c.generation);
    SetFlight(creators, t, Building(ForGet, c.service, c.generation, p));
  }

  // ---------------------------------------------------------------- every step keeps the invariant

  lemma ClosePoolKeeps(s: State, p: PoolId)
    requires Inv(s) && p < |s.pools|
    ensures Inv(ClosePool(s, p))
  {
    hide ClientsOk, OwnersOk, FlightsOk;
    EmptiedClients(s.pools, s.open, s.made, p);
    EmptiedOwners(s.pools, s.published, s.creators, p);
  }

  lemma BumpKeeps(s: State, service: Service)
    requires Inv(s) && EmptyEntry(s.pools, s.published, service)
    ensures Inv(s.(generation := s.generation + 1, resets := s.resets[service := s.generation + 1]))
  {
    hide ClientsOk, OwnersOk, FlightsOk;
  }

  lemma UnpublishKeeps(s: State, service: Service)
    requires Inv(s) && EmptyEntry(s.pools, s.published, service)
    ensures Inv(s.(published := s.published - {service}))
  {
    hide ClientsOk, OwnersOk, FlightsOk;
    UnpublishOwners(s.pools, s.published, s.creators, service);
  }

  lemma CloseServiceKeeps(s: State, service: Service, failed: bool)
    requires Inv(s)
    ensures Inv(CloseService(s, service, failed))
  {
    hide ClientsOk, FlightsOk, Recent, Clocks;
    if service in s.published {
      var u := ClosePool(s, s.published[service]);
      ClosePoolKeeps(s, s.published[service]);
      BumpKeeps(u, service);
      UnpublishKeeps(u.(generation := s.generation + 1, resets := s.resets[service := s.generation + 1]), service);
    } else {
      BumpKeeps(s, service);
    }
  }

  lemma CloseEverythingKeeps(s: State)
    requires Inv(s)
    ensures Inv(CloseEverything(s))
  {
    hide ClientsOk, OwnersOk, FlightsOk;
    CloseEverythingClients(s);
    CloseEverythingOwners(s);
  }

  lemma SetCreatorKeeps(s: State, t: Tid, c: Creator)
    requires Inv(s) && Free(s.creators, t) && !c.Building? && c.generation <= s.generation && FlightsOk(s.creators[t := c])
    ensures Inv(SetCreator(s, t, c))
  {
    hide ClientsOk, OwnersOk, FlightsOk, Recent;
    SetOwners(s.pools, s.published, s.creators, t, c);
  }

  lemma LeaveKeeps(s: State, t: Tid)
    requires Inv(s) && Free(s.creators, t)
    ensures Inv(Leave(s, t))
  {
    hide ClientsOk, OwnersOk, FlightsOk, Recent;
    LeaveOwners(s.pools, s.published, s.creators, t);
    LeaveFlight(s.creators, t);
  }

  lemma BeginKeeps(s: State, t: Tid, job: Job, service: Service, generation: nat)
    requires Inv(s) && Free(s.creators, t) && generation <= s.generation
    requires FlightsOk(s.creators[t := Building(job, service, generation, |s.pools|)])
    ensures Inv(Begin(s, t, job, service, generation))
  {
    hide ClientsOk, FlightsOk, Recent, Clocks;
    NewPoolClients(s.pools, s.open, s.made, Pool(service, [], t, generation));
    BeginOwners(s.pools, s.published, s.creators, t, Building(job, service, generation, |s.pools|));
    NewPoolClocks(s, t, Building(job, service, generation, |s.pools|));
  }

  lemma NewPoolClocks(s: State, t: Tid, c: Creator)
    requires Recent(s.pools, s.published, s.resets, s.allReset) && MapOk(s.pools, s.published)
    requires Clocks(s.pools, s.creators, s.resets, s.allReset, s.generation)
    requires c.Building? && c.generation <= s.generation
    ensures Recent(s.pools + [Pool(c.service, [], t, c.generation)], s.published, s.resets, s.allReset)
    ensures Clocks(s.pools + [Pool(c.service, [], t, c.generation)], s.creators[t := c], s.resets, s.allReset, s.generation)
  {
  }

  lemma GrowKeeps(s: State, t: Tid)
    requires Inv(s) && Enabled(s, Grow(t))
    ensures Inv(GrowPool(s, s.creators[t].pool))
  {
    hide ClientsOk, OwnersOk, FlightsOk;
    GrownClients(s.pools, s.open, s.made, s.creators[t].pool);
    GrownOwners(s.pools, s.published, s.creators, t, s.made);
    GrownRecent(s, t);
  }

  /** The pool of a builder is not published, so growing it says nothing about published ones. */
  lemma GrownRecent(s: State, t: Tid)
    requires OwnersOk(s.pools, s.published, s.creators) && Recent(s.pools, s.published, s.resets, s.allReset)
    requires Enabled(s, Grow(t))
    ensures Recent(Grown(s.pools, s.creators[t].pool, s.made), s.published, s.resets, s.allReset)
  {
    assert BuilderOk(s.pools, s.published, t, s.creators[t]);
  }

  lemma FinishFlights(s: State, t: Tid)
    requires FlightsOk(s.creators) && t in s.creators && s.creators[t].Building?
    ensures var crew := Finish(s, t, s.creators[t]).creators;
      FlightsOk(crew) && (crew == s.creators - {t} || (t in crew && crew == s.creators[t := crew[t]] && crew[t].Connecting?))
  {
    LeaveFlight(s.creators, t);
    match s.creators[t].job
    case ForGet =>
    case ForConnect(rest, existing) => SetFlight(s.creators, t, Connecting(rest, existing, s.creators[t].generation));
  }

  lemma FinishClocks(s: State, t: Tid)
    requires Clocks(s.pools, s.creators, s.resets, s.allReset, s.generation) && t in s.creators && s.creators[t].Building?
    ensures Clocks(s.pools, Finish(s, t, s.creators[t]).creators, s.resets, s.allReset, s.generation)
  {
  }

  lemma FinishKeeps(s: State, t: Tid)
    requires Inv(s) && t in s.creators && s.creators[t].Building?
    requires s.creators[t].pool < |s.pools| && s.pools[s.creators[t].pool].clients == []
    ensures Inv(Finish(s, t, s.creators[t]))
  {
    hide ClientsOk, OwnersOk, FlightsOk, Recent, Clocks;
    FinishFlights(s, t);
    FinishClocks(s, t);
    FinishOwners(s.pools, s.published, s.published, s.creators, Finish(s, t, s.creators[t]).creators, t);
  }

  lemma PublishRecent(s: State, c: Creator)
    requires Recent(s.pools, s.published, s.resets, s.allReset) && Clocks(s.pools, s.creators, s.resets, s.allReset, s.generation)
    requires c.Building? && c.pool < |s.pools| && s.pools[c.pool].birth == s.generation
    ensures Recent(s.pools, s.published[c.service := c.pool], s.resets, s.allReset)
  {
  }

  lemma PublishKeeps(s: State, t: Tid)
    requires Inv(s) && t in s.creators && s.creators[t].Building? && s.creators[t].generation == s.generation
    requires EmptyEntry(s.pools, s.published, s.creators[t].service)
    ensures var c := s.creators[t]; Inv(Finish(s.(published := s.published[c.service := c.pool]), t, c))
  {
    hide ClientsOk, FlightsOk, Recent, Clocks;
    var c := s.creators[t];
    assert BuilderOk(s.pools, s.published, t, c);
    var s' := s.(published := s.published[c.service := c.pool]);
    PublishRecent(s, c);
    FinishFlights(s', t);
    FinishClocks(s', t);
    PublishChanges(s, c);
    FinishOwners(s.pools, s.published, s'.published, s.creators, Finish(s', t, c).creators, t);
  }

  lemma PublishChanges(s: State, c: Creator)
    requires c.Building? && c.pool < |s.pools| && s.pools[c.pool].service == c.service
    requires !IsPublished(s.pools, s.published, c.pool)
    ensures s.published[c.service := c.pool] != s.published
  {
    assert s.published[c.service := c.pool][c.service] == c.pool;
  }

  lemma CommitKeeps(s: State, t: Tid, found: bool)
    requires Inv(s) && Enabled(s, Commit(t, found))
    ensures Inv(Next(s, Commit(t, found)))
  {
    hide ClientsOk, FlightsOk, Recent, Clocks, Finish;
    var c := s.creators[t];
    var s1 := Discard(s, c, found);
    if c.service in s.published { ClosePoolKeeps(s, s.published[c.service]); }
    assert Inv(s1);
    if Publishes(s, c, found) {
      PublishKeeps(s1, t);
    } else {
      ClosePoolKeeps(s1, c.pool);
      FinishKeeps(ClosePool(s1, c.pool), t);
    }
  }

  lemma FinishOpen(s: State, t: Tid)
    requires t in s.creators && s.creators[t].Building?
    ensures Finish(s, t, s.creators[t]).open == s.open
  {
  }

  /** A builder that fails closes every connection it had made, and no other. */
  lemma FailKeeps(s: State, t: Tid)
    requires Inv(s) && Enabled(s, Fail(t))
    ensures Inv(Next(s, Fail(t)))
    ensures forall c | c in s.open :: c in Next(s, Fail(t)).open <==> s.open[c] != s.creators[t].pool
  {
    FinishOpen(ClosePool(s, s.creators[t].pool), t);
    hide ClientsOk, OwnersOk, FlightsOk, Recent, Clocks, Finish;
    ClosePoolKeeps(s, s.creators[t].pool);
    FinishKeeps(ClosePool(s, s.creators[t].pool), t);
  }

  lemma GenerationBehind(s: State, t: Tid)
    requires Inv(s) && t in s.creators
    ensures s.creators[t].generation <= s.generation
  {
  }

  lemma BuilderStepKeeps(s: State, e: Step)
    requires Inv(s) && Enabled(s, e) && !Global(e)
    ensures Inv(Next(s, e))
  {
    hide Inv, FlightsOk, GrowPool, ClosePool, CommitPool, CloseService, CloseEverything, Begin, Leave;
    assert FlightsOk(s.creators) by { InvFlights(s); }
    if e.t in s.creators { GenerationBehind(s, e.t); }
    match e
    case GetBegin(t, service, found) =>
      SetFlight(s.creators, t, Sampled(service, s.generation));
      SetCreatorKeeps(s, t, Sampled(service, s.generation));
    case Enter(t) =>
      var c := s.creators[t];
      if Led(s, c.service, c.generation) { LeaveKeeps(s, t); }
      else {
        EnterFlight(s, t);
        SetCreatorKeeps(s, t, Flying(c.service, c.generation));
      }
    case Recheck(t, found) =>
      LeaveKeeps(s, t);
      BuildFlight(s.creators, t, |s.pools|);
      BeginKeeps(s, t, ForGet, s.creators[t].service, s.creators[t].generation);
    case ConnectBegin(t, order) =>
      SetFlight(s.creators, t, Connecting(order, s.published.Keys, s.generation));
      SetCreatorKeeps(s, t, Connecting(order, s.published.Keys, s.generation));
    case ConnectNext(t) => ConnectNextKeeps(s, t);
    case ConnectEnd(t) => LeaveKeeps(s, t);
    case Grow(t) => GrowKeeps(s, t);
    case Fail(t) => FailKeeps(s, t);
    case Commit(t, found) => CommitKeeps(s, t, found);
  }

  lemma InvFlights(s: State)
    requires Inv(s)
    ensures FlightsOk(s.creators)
  {
  }

  lemma ConnectNextKeeps(s: State, t: Tid)
    requires Inv(s) && Enabled(s, ConnectNext(t))
    ensures Inv(Next(s, ConnectNext(t)))
  {
    hide Inv, FlightsOk, Begin;
    InvFlights(s);
    GenerationBehind(s, t);
    var c := s.creators[t];
    SetFlight(s.creators, t, c.(rest := c.rest[1..]));
    SetCreatorKeeps(s, t, c.(rest := c.rest[1..]));
    SetFlight(s.creators, t, Building(ForConnect(c.rest[1..], c.existing), c.rest[0], c.generation, |s.pools|));
    BeginKeeps(s, t, ForConnect(c.rest[1..], c.existing), c.rest[0], c.generation);
  }

  lemma LoseKeeps(s: State, c: ClientId, service: Service)
    requires Inv(s)
    ensures Inv(s.(usable := s.usable - {c})) && Inv(s.(services := s.services + {service}))
  {
  }

  lemma StepKeeps(s: State, e: Step)
    requires Inv(s) && Enabled(s, e)
    ensures Inv(Next(s, e))
  {
    hide Inv, CloseService, CloseEverything;
    match e
    case RegisterService(service) => LoseKeeps(s, 0, service);
    case CloseClient(service, failed) => CloseServiceKeeps(s, service, failed);
    case CloseAll => CloseEverythingKeeps(s);
    case Lose(c) => LoseKeeps(s, c, "");
    case _ => BuilderStepKeeps(s, e);
  }

  lemma {:induction false} InvAlways(size: nat, es: seq<Step>)
    requires Legal(Start(size), es)
    ensures Inv(Run(Start(size), es))
  {
    if |es| > 0 {
      InvAlways(size, es[..|es| - 1]);
      StepKeeps(Run(Start(size), es[..|es| - 1]), es[|es| - 1]);
    }
  }

  // ---------------------------------------------------------------- no leak

  /**
   In every interleaving each connection not closed yet is in exactly one pool, and that pool is
   either in the hands of exactly one builder or published exactly once, under its own service.
  */
  lemma {:induction false} NoLeak(size: nat, es: seq<Step>, c: ClientId)
    requires Legal(Start(size), es) && c in Run(Start(size), es).open
    ensures var s := Run(Start(size), es);
      var p := s.open[c];
      && p < |s.pools| && c in s.pools[p].clients && (forall q | 0 <= q < |s.pools| && q != p :: c !in s.pools[q].clients)
      && (Holds(s.creators, s.pools[p].maker, p) <==> !IsPublished(s.pools, s.published, p))
      && (forall t | Holds(s.creators, t, p) :: t == s.pools[p].maker)
      && (forall x | x in s.published && s.published[x] == p :: x == s.pools[p].service)
  {
    InvAlways(size, es);
    var s := Run(Start(size), es);
    var p := s.open[c];
    assert Owned(s.pools, s.published, s.creators, p);
    if Holds(s.creators, s.pools[p].maker, p) {
      assert BuilderOk(s.pools, s.published, s.pools[p].maker, s.creators[s.pools[p].maker]);
    }
    forall t | Holds(s.creators, t, p) ensures t == s.pools[p].maker {
      assert BuilderOk(s.pools, s.published, t, s.creators[t]);
    }
  }

  /** No two GetClient calls lead flights for one service and generation at the same time. */
  lemma {:induction false} OneFlightPerKey(size: nat, es: seq<Step>, t: Tid, u: Tid)
    requires Legal(Start(size), es)
    requires t in Run(Start(size), es).creators && u in Run(Start(size), es).creators
    requires exists x, g :: InFlight(Run(Start(size), es).creators[t], x, g) && InFlight(Run(Start(size), es).creators[u], x, g)
    ensures t == u
  {
    InvAlways(size, es);
  }

  // ---------------------------------------------------------------- no resurrection

  predicate Samples(e: Step, t: Tid) {
    (e.GetBegin? || e.ConnectBegin?) && e.t == t
  }

  predicate Resets(e: Step, x: Service) {
    e.CloseAll? || (e.CloseClient? && e.service == x)
  }

  ghost function GenerationAt(size: nat, es: seq<Step>, i: nat): nat
    requires i <= |es|
  {
    Run(Start(size), es[..i]).generation
  }

  lemma GenerationGrows(s: State, e: Step)
    requires Enabled(s, e)
    ensures Next(s, e).generation == s.generation + (if e.CloseAll? || e.CloseClient? then 1 else 0)
  {
  }

  lemma {:induction false} GenerationMonotone(size: nat, es: seq<Step>, i: nat, j: nat)
    requires i <= j <= |es| && Legal(Start(size), es)
    ensures Legal(Start(size), es[..j])
    ensures GenerationAt(size, es, i) <= GenerationAt(size, es, j)
    decreases |es| - j, j
  {
    LegalPrefix(size, es, j);
    if i < j {
      assert es[..j][..j - 1] == es[..j - 1];
      GenerationBelow(size, es[..j], i);
      assert es[..j][..i] == es[..i];
    }
  }

  lemma {:induction false} LegalPrefix(size: nat, es: seq<Step>, j: nat)
    requires j <= |es| && Legal(Start(size), es)
    ensures Legal(Start(size), es[..j])
  {
    if j < |es| {
      LegalPrefix(size, es[..|es| - 1], j);
      assert es[..|es| - 1][..j] == es[..j];
    } else {
      assert es[..j] == es;
    }
  }

  lemma {:induction false} GenerationBelow(size: nat, es: seq<Step>, i: nat)
    requires i <= |es| && Legal(Start(size), es)
    ensures GenerationAt(size, es, i) <= Run(Start(size), es).generation
  {
    if i < |es| {
      var n := |es| - 1;
      GenerationBelow(size, es[..n], i);
      assert es[..n][..i] == es[..i];
      GenerationGrows(Run(Start(size), es[..n]), es[n]);
    } else {
      assert es[..i] == es;
    }
  }

  lemma CommitPoolFrame(s: State, c: Creator, found: bool)
    requires c.Building? && c.pool < |s.pools|
    ensures var s' := CommitPool(s, c, found);
      s'.resets == s.resets && s'.allReset == s.allReset && s'.generation == s.generation && s'.creators == s.creators
  {
  }

  lemma FinishFrame(s: State, t: Tid)
    requires t in s.creators && s.creators[t].Building?
    ensures var s' := Finish(s, t, s.creators[t]);
      && s'.resets == s.resets && s'.allReset == s.allReset && s'.generation == s.generation
      && (forall u | u in s'.creators :: u in s.creators && s'.creators[u].generation == s.creators[u].generation)
  {
  }

  /** What a builder leaves alone when it is done with its pool. */
  lemma BuilderFrame(s: State, e: Step)
    requires Enabled(s, e) && (e.Grow? || e.Fail? || e.Commit?)
    ensures var s' := Next(s, e);
      && s'.resets == s.resets && s'.allReset == s.allReset && s'.generation == s.generation
      && (forall t | t in s'.creators :: t in s.creators && s'.creators[t].generation == s.creators[t].generation)
  {
    hide HasUsable, FoundOk, Emptied, Without, Grown, CommitPool, Finish;
    match e
    case Commit(t, found) =>
      CommitPoolFrame(s, s.creators[t], found);
      FinishFrame(CommitPool(s, s.creators[t], found), t);
    case Fail(t) => FinishFrame(ClosePool(s, s.creators[t].pool), t);
    case _ =>
  }

  lemma CreatorHistory(s: State, e: Step, t: Tid)
    requires Enabled(s, e) && t in Next(s, e).creators
    ensures if Samples(e, t) then Next(s, e).creators[t].generation == s.generation
      else t in s.creators && Next(s, e).creators[t].generation == s.creators[t].generation
  {
    hide HasUsable, FoundOk, Led, ClosePool, GrowPool, CommitPool, Finish;
    if e.Grow? || e.Fail? || e.Commit? { BuilderFrame(s, e); }
    if e.CloseClient? { CloseServiceFrame(s, e.service, e.failed); }
  }

  ghost predicate SameOrigins(a: seq<Pool>, b: seq<Pool>) {
    |a| == |b| && forall p | 0 <= p < |a| :: a[p].birth == b[p].birth && a[p].maker == b[p].maker
  }

  lemma BuilderOrigins(s: State, e: Step)
    requires Enabled(s, e) && (e.Grow? || e.Fail? || e.Commit?)
    ensures SameOrigins(s.pools, Next(s, e).pools)
  {
    hide HasUsable, FoundOk, Without, Emptied, Grown, SameOrigins;
    var c := s.creators[e.t];
    EditedOrigins(s.pools, c.pool, s.made);
    if c.service in s.published && s.published[c.service] < |s.pools| {
      EditedOrigins(s.pools, s.published[c.service], s.made);
      EmptiedLength(s.pools, s.published[c.service]);
      EditedOrigins(Emptied(s.pools, s.published[c.service]), c.pool, s.made);
      OriginsChain(s.pools, Emptied(s.pools, s.published[c.service]), Emptied(Emptied(s.pools, s.published[c.service]), c.pool));
    }
    OriginsSame(s.pools);
  }

  lemma EmptiedLength(pools: seq<Pool>, p: PoolId)
    requires p < |pools|
    ensures |Emptied(pools, p)| == |pools|
  {
  }

  lemma EditedOrigins(pools: seq<Pool>, p: PoolId, client: ClientId)
    requires p < |pools|
    ensures SameOrigins(pools, Emptied(pools, p)) && SameOrigins(pools, Grown(pools, p, client))
  {
  }

  lemma OriginsSame(pools: seq<Pool>)
    ensures SameOrigins(pools, pools)
  {
  }

  lemma OriginsChain(a: seq<Pool>, b: seq<Pool>, c: seq<Pool>)
    requires SameOrigins(a, b) && SameOrigins(b, c)
    ensures SameOrigins(a, c)
  {
  }

  lemma GlobalOrigins(s: State, e: Step)
    requires Global(e)
    ensures SameOrigins(s.pools, Next(s, e).pools)
  {
    hide HasUsable, FoundOk, Without, WithoutAll;
  }

  lemma PoolHistory(s: State, e: Step, p: PoolId)
    requires Enabled(s, e) && p < |Next(s, e).pools|
    ensures if p < |s.pools| then Next(s, e).pools[p].birth == s.pools[p].birth && Next(s, e).pools[p].maker == s.pools[p].maker
      else var t := Next(s, e).pools[p].maker; t in s.creators && Next(s, e).pools[p].birth == s.creators[t].generation
  {
    hide HasUsable, FoundOk, Led, ClosePool, GrowPool, CommitPool, Finish, CloseService, CloseEverything;
    if Global(e) { GlobalOrigins(s, e); }
    if e.Grow? || e.Fail? || e.Commit? { BuilderOrigins(s, e); }
  }

  /** The moment at which the call behind a builder sampled the generation. */
  lemma {:induction false} SampledAt(size: nat, es: seq<Step>, t: Tid) returns (i: nat)
    requires Legal(Start(size), es) && t in Run(Start(size), es).creators
    ensures i < |es| && Samples(es[i], t) && GenerationAt(size, es, i) == Run(Start(size), es).creators[t].generation
    ensures forall j | i < j < |es| :: !Samples(es[j], t)
  {
    hide Next, Enabled;
    var n := |es| - 1;
    var s := Run(Start(size), es[..n]);
    CreatorHistory(s, es[n], t);
    if Samples(es[n], t) {
      i := n;
    } else {
      i := SampledAt(size, es[..n], t);
      assert es[..n][..i] == es[..i];
    }
  }

  lemma {:induction false} BornAt(size: nat, es: seq<Step>, p: PoolId) returns (i: nat)
    requires Legal(Start(size), es) && p < |Run(Start(size), es).pools|
    ensures i < |es| && Samples(es[i], Run(Start(size), es).pools[p].maker)
    ensures GenerationAt(size, es, i) == Run(Start(size), es).pools[p].birth
  {
    hide Next, Enabled;
    var n := |es| - 1;
    var s := Run(Start(size), es[..n]);
    PoolHistory(s, es[n], p);
    if p < |s.pools| {
      i := BornAt(size, es[..n], p);
    } else {
      i := SampledAt(size, es[..n], Run(Start(size), es).pools[p].maker);
    }
    assert es[..n][..i] == es[..i];
  }

  lemma ResetHistory(s: State, e: Step, x: Service)
    requires Clocks(s.pools, s.creators, s.resets, s.allReset, s.generation) && Enabled(s, e)
    ensures ResetAt(Next(s, e).resets, Next(s, e).allReset, x) ==
      if Resets(e, x) then s.generation + 1 else ResetAt(s.resets, s.allReset, x)
  {
    hide HasUsable, FoundOk, Led, ClosePool, GrowPool, CommitPool, Finish, Emptied, Without, Grown;
    if e.Grow? || e.Fail? || e.Commit? { BuilderFrame(s, e); }
    if e.CloseClient? { CloseServiceFrame(s, e.service, e.failed); }
  }

  lemma CloseServiceFrame(s: State, service: Service, failed: bool)
    ensures CloseService(s, service, failed).resets == s.resets[service := s.generation + 1]
    ensures CloseService(s, service, failed).allReset == s.allReset
    ensures CloseService(s, service, failed).creators == s.creators
  {
  }

  lemma InvClocks(s: State)
    requires Inv(s)
    ensures Clocks(s.pools, s.creators, s.resets, s.allReset, s.generation)
  {
  }

  lemma {:induction false} ResetCounts(size: nat, es: seq<Step>, x: Service, j: nat)
    requires Legal(Start(size), es) && j < |es| && Resets(es[j], x)
    ensures ResetAt(Run(Start(size), es).resets, Run(Start(size), es).allReset, x) > GenerationAt(size, es, j)
  {
    hide Next, Enabled, Inv, ResetAt, Clocks;
    var n := |es| - 1;
    var s := Run(Start(size), es[..n]);
    InvAlways(size, es[..n]);
    InvClocks(s);
    ResetHistory(s, es[n], x);
    assert es[..n][..j] == es[..j];
    if j < n {
      ResetCounts(size, es[..n], x, j);
      GenerationBelow(size, es[..n], j);
    }
  }

  /**
   In every interleaving, a published pool that still holds connections was built by a call that
   sampled the generation after the last CloseAll and after the last CloseClient of its service.
  */
  lemma {:induction false} NoResurrection(size: nat, es: seq<Step>, x: Service, j: nat) returns (i: nat)
    requires Legal(Start(size), es) && Serves(Run(Start(size), es), x)
    requires j < |es| && Resets(es[j], x)
    ensures var s := Run(Start(size), es);
      && j < i < |es| && Samples(es[i], s.pools[s.published[x]].maker)
      && GenerationAt(size, es, i) == s.pools[s.published[x]].birth
  {
    InvAlways(size, es);
    var s := Run(Start(size), es);
    i := BornAt(size, es, s.published[x]);
    ResetCounts(size, es, x, j);
    assert s.pools[s.published[x]].birth >= ResetAt(s.resets, s.allReset, x);
    if i <= j { GenerationMonotone(size, es, i, j); }
  }

  /** A pool with connections is published for the service. */
  predicate Serves(s: State, x: Service) {
    x in s.published && s.published[x] < |s.pools| && s.pools[s.published[x]].clients != []
  }

  // ---------------------------------------------------------------- draining after CloseAll

  ghost predicate Draining(s: State) {
    s.published == map[] && forall t | t in s.creators :: s.creators[t].generation < s.generation
  }

  lemma DrainStep(s: State, e: Step)
    requires Inv(s) && Enabled(s, e) && Draining(s) && !e.GetBegin? && !e.ConnectBegin?
    ensures Draining(Next(s, e))
  {
    hide HasUsable, FoundOk, Led, ClientsOk, OwnersOk, Recent, Emptied, Without, Grown;
  }

  /**
   After CloseAll, whatever the builders under way still do, nothing is published until a new call
   begins; and when the last of them has returned every connection ever made is closed.
  */
  lemma {:induction false} CloseAllDrains(size: nat, before: seq<Step>, after: seq<Step>)
    requires Legal(Start(size), before + [CloseAll] + after)
    requires forall i | 0 <= i < |after| :: !after[i].GetBegin? && !after[i].ConnectBegin?
    ensures var s := Run(Start(size), before + [CloseAll] + after);
      s.published == map[] && (s.creators == map[] ==> s.open == map[])
  {
    Drains(size, before, after);
    var all := before + [CloseAll] + after;
    InvAlways(size, all);
    var s := Run(Start(size), all);
    if s.creators == map[] {
      forall c | c in s.open ensures false {
        OpenIsOwned(s, c);
      }
    }
  }

  lemma OpenIsOwned(s: State, c: ClientId)
    requires Inv(s) && c in s.open
    ensures s.creators != map[] || s.published != map[]
  {
    assert Owned(s.pools, s.published, s.creators, s.open[c]);
  }

  lemma {:induction false} Drains(size: nat, before: seq<Step>, after: seq<Step>)
    requires Legal(Start(size), before + [CloseAll] + after)
    requires forall i | 0 <= i < |after| :: !after[i].GetBegin? && !after[i].ConnectBegin?
    ensures Draining(Run(Start(size), before + [CloseAll] + after))
  {
    var all := before + [CloseAll] + after;
    var n := |all| - 1;
    InvAlways(size, all[..n]);
    if |after| == 0 {
      assert all[..n] == before && all[n] == CloseAll;
      CloseAllStarts(Run(Start(size), before));
    } else {
      assert all[..n] == before + [CloseAll] + after[..|after| - 1] && all[n] == after[|after| - 1];
      Drains(size, before, after[..|after| - 1]);
      DrainStep(Run(Start(size), all[..n]), all[n]);
    }
  }

  lemma CloseAllStarts(s: State)
    requires Inv(s)
    ensures Draining(Next(s, CloseAll))
  {
  }

  // ---------------------------------------------------------------- emptied entries

  /** Every published pool still has its connections, usable or not. */
  ghost predicate AllStocked(s: State) {
    StockedIn(s.pools, s.published)
  }

  ghost predicate StockedIn(pools: seq<Pool>, published: map<Service, PoolId>) {
    forall x | x in published :: published[x] < |pools| && pools[published[x]].clients != []
  }

  lemma EmptyingUnpublished(pools: seq<Pool>, published: map<Service, PoolId>, p: PoolId)
    requires StockedIn(pools, published) && MapOk(pools, published) && p < |pools| && !IsPublished(pools, published, p)
    ensures StockedIn(Emptied(pools, p), published)
  {
  }

  lemma Replacing(pools: seq<Pool>, published: map<Service, PoolId>, x: Service, p: PoolId)
    requires StockedIn(pools, published) && MapOk(pools, published)
    requires p < |pools| && pools[p].clients != [] && pools[p].service == x && !IsPublished(pools, published, p)
    ensures StockedIn(if x in published then Emptied(pools, published[x]) else pools, published[x := p])
  {
  }

  lemma Growing(pools: seq<Pool>, published: map<Service, PoolId>, p: PoolId, client: ClientId, pool: Pool)
    requires StockedIn(pools, published)
    ensures p < |pools| ==> StockedIn(Grown(pools, p, client), published)
    ensures StockedIn(pools + [pool], published)
  {
  }

  /**
   A CloseClient whose pool reports an error, or a GetClient that finds nothing usable in the
   published pool, closes it, and is then refused because the generation has moved.
  */
  ghost predicate Hollows(s: State, e: Step, x: Service) {
    x in s.published &&
    match e
    case CloseClient(service, failed) => service == x && failed
    case Commit(t, found) =>
      t in s.creators && s.creators[t].Building? && s.creators[t].job.ForGet? && s.creators[t].service == x
      && !found && s.generation != s.creators[t].generation
    case _ => false
  }

  lemma CommitStocks(s: State, t: Tid, found: bool)
    requires Inv(s) && s.size >= 1 && Enabled(s, Commit(t, found)) && AllStocked(s) && s.published.Keys <= s.services
    requires !Hollows(s, Commit(t, found), s.creators[t].service)
    ensures AllStocked(Next(s, Commit(t, found)))
    ensures Next(s, Commit(t, found)).published.Keys <= Next(s, Commit(t, found)).services
    ensures Next(s, Commit(t, found)).size == s.size
  {
    hide ClientsOk, FlightsOk, Recent, Clocks, HasUsable, FoundOk, Without, StockedIn, Emptied, IsPublished, MapOk, Owned;
    var c := s.creators[t];
    assert BuilderOk(s.pools, s.published, t, c);
    if Publishes(s, c, found) {
      Replacing(s.pools, s.published, c.service, c.pool);
      InRange(s, c.service);
    } else {
      EmptyingUnpublished(s.pools, s.published, c.pool);
    }
  }

  lemma InRange(s: State, x: Service)
    requires OwnersOk(s.pools, s.published, s.creators)
    ensures x in s.published ==> s.published[x] < |s.pools|
  {
  }

  /** Connecting and giving up touch only the builder's own pool, which is not published. */
  lemma BuildingStocks(s: State, e: Step)
    requires Inv(s) && Enabled(s, e) && (e.Grow? || e.Fail?) && AllStocked(s)
    ensures AllStocked(Next(s, e)) && Next(s, e).published == s.published && Next(s, e).services == s.services
    ensures Next(s, e).size == s.size
  {
    hide ClientsOk, FlightsOk, Recent, Clocks, HasUsable, FoundOk, Without, Led, StockedIn, Emptied, Grown, IsPublished, MapOk,
      Owned;
    var p := s.creators[e.t].pool;
    assert BuilderOk(s.pools, s.published, e.t, s.creators[e.t]);
    EmptyingUnpublished(s.pools, s.published, p);
    Growing(s.pools, s.published, p, s.made, Pool("", [], 0, 0));
  }

  /** The other steps of a call leave the pools alone or add one. */
  lemma CallingAdds(s: State, e: Step) returns (pool: Pool)
    requires Enabled(s, e) && !Global(e) && !e.Commit? && !e.Grow? && !e.Fail?
    ensures Next(s, e).published == s.published && Next(s, e).services == s.services && Next(s, e).size == s.size
    ensures Next(s, e).pools == s.pools || Next(s, e).pools == s.pools + [pool]
  {
    hide HasUsable, FoundOk, Led;
    pool := if |Next(s, e).pools| > |s.pools| then Next(s, e).pools[|s.pools|] else Pool("", [], 0, 0);
  }

  lemma BuilderStocks(s: State, e: Step)
    requires Inv(s) && Enabled(s, e) && !Global(e) && !e.Commit? && AllStocked(s) && s.published.Keys <= s.services
    ensures AllStocked(Next(s, e)) && Next(s, e).published == s.published && Next(s, e).services == s.services
    ensures Next(s, e).size == s.size
  {
    hide Inv, Enabled, Next, StockedIn;
    if e.Grow? || e.Fail? {
      BuildingStocks(s, e);
    } else {
      var pool := CallingAdds(s, e);
      Growing(s.pools, s.published, 0, 0, pool);
    }
  }

  lemma GlobalStocks(s: State, e: Step)
    requires Inv(s) && Global(e) && AllStocked(s) && s.published.Keys <= s.services
    requires forall x :: !Hollows(s, e, x)
    ensures AllStocked(Next(s, e)) && Next(s, e).published.Keys <= Next(s, e).services && Next(s, e).size == s.size
  {
    hide ClientsOk, FlightsOk, Recent, Clocks, Without, WithoutAll;
    if e.CloseClient? { assert !Hollows(s, e, e.service); }
  }

  /** The entry it hollows stays published, with nothing in it. */
  lemma HollowEmpties(s: State, e: Step, x: Service)
    requires Inv(s) && Enabled(s, e) && Hollows(s, e, x)
    ensures var s' := Next(s, e);
      x in s'.published && s'.published[x] == s.published[x] < |s'.pools| && s'.pools[s'.published[x]].clients == []
  {
    hide ClientsOk, FlightsOk, Recent, Clocks, HasUsable, FoundOk, Without;
  }

  lemma {:induction false} Stocked(size: nat, es: seq<Step>)
    requires size >= 1 && Legal(Start(size), es)
    requires forall i, x | 0 <= i < |es| :: !Hollows(Run(Start(size), es[..i]), es[i], x)
    ensures var s := Run(Start(size), es);
      AllStocked(s) && s.published.Keys <= s.services && s.size == size
  {
    if |es| > 0 {
      hide Next, Enabled, Inv, AllStocked, Hollows;
      var n := |es| - 1;
      forall i, x | 0 <= i < n ensures !Hollows(Run(Start(size), es[..n][..i]), es[..n][i], x) {
        assert es[..n][..i] == es[..i];
        assert !Hollows(Run(Start(size), es[..i]), es[i], x);
      }
      Stocked(size, es[..n]);
      InvAlways(size, es[..n]);
      var s, e := Run(Start(size), es[..n]), es[n];
      assert forall x :: !Hollows(s, e, x);
      StepStocks(s, e);
    } else {
      assert Run(Start(size), es) == Start(size);
    }
  }

  lemma StepStocks(s: State, e: Step)
    requires Inv(s) && s.size >= 1 && Enabled(s, e) && AllStocked(s) && s.published.Keys <= s.services
    requires forall x :: !Hollows(s, e, x)
    ensures AllStocked(Next(s, e)) && Next(s, e).published.Keys <= Next(s, e).services && Next(s, e).size == s.size
  {
    hide Next, Inv, AllStocked, Hollows;
    if Global(e) {
      GlobalStocks(s, e);
    } else if e.Commit? {
      CommitStocks(s, e.t, e.found);
    } else {
      BuilderStocks(s, e);
    }
  }

  /**
   Over every run, at every moment all published entries have their connections, if and only if no
   CloseClient of a published service reports an error and no GetClient is refused by a moved
   generation after it closed the published pool.
  */
  lemma {:induction false} EntriesStayStockedIff(size: nat, es: seq<Step>)
    requires size >= 1 && Legal(Start(size), es)
    ensures (forall i | 0 <= i <= |es| :: AllStocked(Run(Start(size), es[..i])))
       <==> (forall i, x | 0 <= i < |es| :: !Hollows(Run(Start(size), es[..i]), es[i], x))
  {
    if forall i, x | 0 <= i < |es| :: !Hollows(Run(Start(size), es[..i]), es[i], x) {
      forall i | 0 <= i <= |es| ensures AllStocked(Run(Start(size), es[..i])) {
        StockedAt(size, es, i);
      }
    } else {
      var i, x :| 0 <= i < |es| && Hollows(Run(Start(size), es[..i]), es[i], x);
      HollowAt(size, es, i, x);
    }
  }

  lemma StockedAt(size: nat, es: seq<Step>, i: nat)
    requires size >= 1 && Legal(Start(size), es) && i <= |es|
    requires forall j, x | 0 <= j < |es| :: !Hollows(Run(Start(size), es[..j]), es[j], x)
    ensures AllStocked(Run(Start(size), es[..i]))
  {
    hide Hollows, Next, Enabled;
    LegalPrefix(size, es, i);
    forall j, x | 0 <= j < i ensures !Hollows(Run(Start(size), es[..i][..j]), es[..i][j], x) {
      assert es[..i][..j] == es[..j];
      assert !Hollows(Run(Start(size), es[..j]), es[j], x);
    }
    Stocked(size, es[..i]);
  }

  lemma HollowAt(size: nat, es: seq<Step>, i: nat, x: Service)
    requires Legal(Start(size), es) && i < |es| && Hollows(Run(Start(size), es[..i]), es[i], x)
    ensures !AllStocked(Run(Start(size), es[..i + 1]))
  {
    hide Hollows, Next, Enabled, Inv;
    LegalPrefix(size, es, i + 1);
    LegalPrefix(size, es, i);
    assert es[..i + 1][..i] == es[..i];
    InvAlways(size, es[..i]);
    HollowEmpties(Run(Start(size), es[..i]), es[i], x);
  }

  // ---------------------------------------------------------------- an entry emptied by a refused commit

  lemma RunAppend(s: State, es: seq<Step>, e: Step)
    requires Legal(s, es) && Enabled(Run(s, es), e)
    ensures Legal(s, es + [e]) && Run(s, es + [e]) == Next(Run(s, es), e)
  {
    assert (es + [e])[..|es|] == es;
  }

  /** A GetClient that finds nothing usable, leads its flight and makes the one connection of its pool. */
  function BuildSteps(t: Tid, x: Service): seq<Step> {
    [GetBegin(t, x, false), Enter(t), Recheck(t, false), Grow(t)]
  }

  function Built(s: State, t: Tid, x: Service): State {
    s.(creators := map[t := Building(ForGet, x, s.generation, |s.pools|)], pools := s.pools + [Pool(x, [s.made], t, s.generation)],
       open := s.open[s.made := |s.pools|], usable := s.usable + {s.made}, made := s.made + 1)
  }

  /** Nobody else is under way. */
  predicate Quiet(s: State, x: Service) {
    s.size == 1 && s.creators == map[] && x in s.services
  }

  lemma GetAlone(s: State, t: Tid, x: Service)
    requires Quiet(s, x)
    ensures Enabled(s, GetBegin(t, x, false)) && Next(s, GetBegin(t, x, false)) == SetCreator(s, t, Sampled(x, s.generation))
  {
  }

  lemma EnterAlone(s: State, t: Tid, x: Service)
    requires Quiet(s, x)
    ensures var s1 := SetCreator(s, t, Sampled(x, s.generation));
      Enabled(s1, Enter(t)) && Next(s1, Enter(t)) == SetCreator(s, t, Flying(x, s.generation))
  {
    var s1 := SetCreator(s, t, Sampled(x, s.generation));
    assert !Led(s1, x, s.generation);
    assert s1.creators[t := Flying(x, s.generation)] == s.creators[t := Flying(x, s.generation)];
  }

  lemma RecheckAlone(s: State, t: Tid, x: Service)
    requires Quiet(s, x)
    ensures var s2, s3 := SetCreator(s, t, Flying(x, s.generation)), Begin(s, t, ForGet, x, s.generation);
      Enabled(s2, Recheck(t, false)) && Next(s2, Recheck(t, false)) == s3
  {
    var c := Building(ForGet, x, s.generation, |s.pools|);
    assert s.creators[t := Flying(x, s.generation)][t := c] == s.creators[t := c];
  }

  lemma GrowAlone(s: State, t: Tid, x: Service)
    requires Quiet(s, x)
    ensures var s3 := Begin(s, t, ForGet, x, s.generation);
      Enabled(s3, Grow(t)) && Next(s3, Grow(t)) == Built(s, t, x)
  {
    var p, q := Pool(x, [], t, s.generation), Pool(x, [s.made], t, s.generation);
    assert (s.pools + [p])[|s.pools|] == p;
    assert q == p.(clients := p.clients + [s.made]);
    assert (s.pools + [p])[|s.pools| := q] == s.pools + [q];
  }

  lemma BuildAlone(s: State, es: seq<Step>, t: Tid, x: Service)
    requires Legal(s, es) && Quiet(Run(s, es), x)
    ensures Legal(s, es + BuildSteps(t, x)) && Run(s, es + BuildSteps(t, x)) == Built(Run(s, es), t, x)
  {
    hide Legal, Run, Next, Enabled, Begin, Built, SetCreator, Quiet;
    var v := Run(s, es);
    GetAlone(v, t, x);
    EnterAlone(v, t, x);
    RecheckAlone(v, t, x);
    GrowAlone(v, t, x);
    RunAppend(s, es, GetBegin(t, x, false));
    RunAppend(s, es + [GetBegin(t, x, false)], Enter(t));
    RunAppend(s, es + [GetBegin(t, x, false)] + [Enter(t)], Recheck(t, false));
    RunAppend(s, es + [GetBegin(t, x, false)] + [Enter(t)] + [Recheck(t, false)], Grow(t));
    assert es + [GetBegin(t, x, false)] + [Enter(t)] + [Recheck(t, false)] + [Grow(t)] == es + BuildSteps(t, x);
  }

  /**
   Call 0 publishes a pool for x and its connection is lost; call 1, of the same generation, builds
   another while a CloseClient of y moves the generation, and is then refused.
  */
  function RefusedRun(x: Service, y: Service): seq<Step> {
    [RegisterService(x)] + BuildSteps(0, x) + [Commit(0, false)] + [Lose(0)] + BuildSteps(1, x) + [CloseClient(y, false)]
  }

  function Registered(x: Service): State {
    Start(1).(services := {x})
  }

  /** The pool of call 0 is published and its connection lost. */
  function Lost(x: Service): State {
    Registered(x).(published := map[x := 0], pools := [Pool(x, [0], 0, 0)], open := map[0 := 0], made := 1)
  }

  /** Call 1 has its pool ready, and the generation has moved. */
  function Refusing(x: Service, y: Service): State {
    Lost(x).(pools := [Pool(x, [0], 0, 0), Pool(x, [1], 1, 0)], open := map[0 := 0, 1 := 1], usable := {1}, made := 2,
      creators := map[1 := Building(ForGet, x, 0, 1)], generation := 1, resets := map[y := 1])
  }

  lemma FirstPublishes(x: Service)
    ensures var s := Built(Registered(x), 0, x);
      && Enabled(s, Commit(0, false)) && Enabled(Next(s, Commit(0, false)), Lose(0))
      && Next(Next(s, Commit(0, false)), Lose(0)) == Lost(x)
  {
    var s := Built(Registered(x), 0, x);
    assert s.pools == [Pool(x, [0], 0, 0)] && s.creators - {0} == map[];
    assert {0} - {0} == {} && s.usable == {0};
  }

  lemma SecondIsReady(x: Service, y: Service)
    requires x != y
    ensures var s := Built(Lost(x), 1, x);
      Enabled(s, CloseClient(y, false)) && Next(s, CloseClient(y, false)) == Refusing(x, y)
  {
    var s := Built(Lost(x), 1, x);
    assert s.pools == [Pool(x, [0], 0, 0), Pool(x, [1], 1, 0)];
    assert s.usable == {1} && s.open == map[0 := 0, 1 := 1];
  }

  lemma RefusedCommit(x: Service, y: Service)
    requires x != y
    ensures var s := Refusing(x, y);
      && Enabled(s, Commit(1, false)) && Hollows(s, Commit(1, false), x)
      && var s' := Next(s, Commit(1, false));
        s'.published == map[x := 0] && s'.pools == [Pool(x, [], 0, 0), Pool(x, [], 1, 0)] && s'.open == map[] && s'.creators == map[]
  {
    var s := Refusing(x, y);
    var one := Emptied(s.pools, 0);
    assert one == [Pool(x, [], 0, 0), Pool(x, [1], 1, 0)];
    assert Emptied(one, 1) == [Pool(x, [], 0, 0), Pool(x, [], 1, 0)];
    assert Without(s.open, 0) == map[1 := 1] && Without(Without(s.open, 0), 1) == map[];
  }

  /** Nobody closed x, yet its published pool ends with no connection. */
  lemma RefusedCommitEmpties(x: Service, y: Service)
    requires x != y
    ensures Legal(Start(1), RefusedRun(x, y)) && Enabled(Run(Start(1), RefusedRun(x, y)), Commit(1, false))
    ensures Hollows(Run(Start(1), RefusedRun(x, y)), Commit(1, false), x)
    ensures var s := Next(Run(Start(1), RefusedRun(x, y)), Commit(1, false));
      s.published == map[x := 0] && s.pools == [Pool(x, [], 0, 0), Pool(x, [], 1, 0)] && s.open == map[] && s.creators == map[]
  {
    FirstPublishes(x);
    SecondIsReady(x, y);
    RefusedCommit(x, y);
    RegisterAlone(x);
    hide Legal, Run, Next, Enabled, Built, Hollows, Start, Lost, Refusing, Registered;
    var r := [RegisterService(x)];
    BuildAlone(Start(1), r, 0, x);
    var a := r + BuildSteps(0, x);
    RunAppend(Start(1), a, Commit(0, false));
    RunAppend(Start(1), a + [Commit(0, false)], Lose(0));
    var b := a + [Commit(0, false)] + [Lose(0)];
    BuildAlone(Start(1), b, 1, x);
    RunAppend(Start(1), b + BuildSteps(1, x), CloseClient(y, false));
  }

  lemma RegisterAlone(x: Service)
    ensures Legal(Start(1), [RegisterService(x)]) && Run(Start(1), [RegisterService(x)]) == Registered(x)
    ensures Quiet(Registered(x), x) && Quiet(Lost(x), x)
  {
    RunAppend(Start(1), [], RegisterService(x));
    assert [] + [RegisterService(x)] == [RegisterService(x)];
  }

  // ---------------------------------------------------------------- what ConnectAll passes over

  predicate Connects(c: Creator) {
    c.Connecting? || (c.Building? && c.job.ForConnect?)
  }

  /** The services a ConnectAll took for connected, and those it has still to go through. */
  function Listed(c: Creator): set<Service>
    requires Connects(c)
  {
    if c.Connecting? then c.existing else c.job.existing
  }

  function Ahead(c: Creator): seq<Service>
    requires Connects(c)
  {
    if c.Connecting? then c.rest else c.job.rest
  }

  lemma ListedHistory(s: State, e: Step, t: Tid)
    requires Enabled(s, e) && t in Next(s, e).creators && Connects(Next(s, e).creators[t])
    ensures var c' := Next(s, e).creators[t];
      if Samples(e, t) then
        e.ConnectBegin? && Listed(c') == s.published.Keys && Ahead(c') == e.order
      else
        t in s.creators && GoesOn(s.creators[t], c')
  {
    hide HasUsable, FoundOk, Led, ClosePool, GrowPool, CommitPool, Finish, CloseService, CloseEverything, GoesOn;
    if t in s.creators { GoesOnSame(s.creators[t]); }
    if Global(e) {
      GlobalCreators(s, e);
    } else if e.Grow? || e.Fail? || e.Commit? {
      BuilderGoesOn(s, e, t);
    } else if e.ConnectNext? {
      NextGoesOn(s, e.t, t);
    }
  }

  lemma GoesOnSame(c: Creator)
    ensures Connects(c) ==> GoesOn(c, c)
  {
  }

  lemma NextGoesOn(s: State, u: Tid, t: Tid)
    requires Enabled(s, ConnectNext(u)) && t in Next(s, ConnectNext(u)).creators
    requires Connects(Next(s, ConnectNext(u)).creators[t])
    ensures t in s.creators && GoesOn(s.creators[t], Next(s, ConnectNext(u)).creators[t])
  {
    hide HasUsable, FoundOk, Led;
    GoesOnHead(s.creators[u], |s.pools|);
    if t in s.creators { GoesOnSame(s.creators[t]); }
    hide GoesOn, Listed, Ahead;
  }

  lemma GoesOnHead(c: Creator, p: PoolId)
    requires c.Connecting? && c.rest != []
    ensures GoesOn(c, c.(rest := c.rest[1..])) && GoesOn(c, Building(ForConnect(c.rest[1..], c.existing), c.rest[0], c.generation, p))
  {
  }

  lemma GlobalCreators(s: State, e: Step)
    requires Global(e)
    ensures Next(s, e).creators == s.creators
  {
    hide ClosePool, Without, WithoutAll, EmptiedAll;
    if e.CloseClient? { CloseServiceFrame(s, e.service, e.failed); }
  }

  /** The same ConnectAll, at the same place of its list or one further. */
  predicate GoesOn(c: Creator, c': Creator) {
    && Connects(c) && Connects(c') && Listed(c') == Listed(c)
    && (Ahead(c') == Ahead(c) || (Ahead(c) != [] && Ahead(c') == Ahead(c)[1..]))
  }

  lemma FinishGoesOn(c: Creator)
    requires c.Building? && c.job.ForConnect?
    ensures GoesOn(c, Connecting(c.job.rest, c.job.existing, c.generation))
  {
  }

  lemma BuilderGoesOn(s: State, e: Step, t: Tid)
    requires Enabled(s, e) && (e.Grow? || e.Fail? || e.Commit?)
    requires t in Next(s, e).creators && Connects(Next(s, e).creators[t])
    ensures t in s.creators && GoesOn(s.creators[t], Next(s, e).creators[t])
  {
    hide HasUsable, FoundOk, Emptied, Without, Grown, CommitPool, GoesOn;
    if t in s.creators {
      GoesOnSame(s.creators[t]);
      if s.creators[t].Building? && Connects(s.creators[t]) { FinishGoesOn(s.creators[t]); }
    }
    if e.Commit? { CommitPoolFrame(s, s.creators[e.t], e.found); }
  }

  /** The ConnectBegin of a ConnectAll under way, and how far down its list the call is. */
  lemma {:induction false} ListedAt(size: nat, es: seq<Step>, t: Tid) returns (i: nat, k: nat)
    requires Legal(Start(size), es)
    requires t in Run(Start(size), es).creators && Connects(Run(Start(size), es).creators[t])
    ensures i < |es| && es[i].ConnectBegin? && es[i].t == t && forall j | i < j < |es| :: !Samples(es[j], t)
    ensures Listed(Run(Start(size), es).creators[t]) == Run(Start(size), es[..i]).published.Keys
    ensures k <= |es[i].order| && Ahead(Run(Start(size), es).creators[t]) == es[i].order[k..]
  {
    hide Next, Enabled, Listed, Ahead;
    var n := |es| - 1;
    var s := Run(Start(size), es[..n]);
    ListedHistory(s, es[n], t);
    if Samples(es[n], t) {
      i, k := n, 0;
    } else {
      i, k := ListedAt(size, es[..n], t);
      assert es[..n][..i] == es[..i];
      if Ahead(Run(Start(size), es).creators[t]) != Ahead(s.creators[t]) { k := k + 1; }
    }
  }

  /**
   Over every run and for every service of its list: a ConnectAll passes over the service exactly
   when an entry for it was published when the call began, emptied or not, and else builds a pool.
  */
  lemma ConnectAllSkipsIff(size: nat, es: seq<Step>, t: Tid) returns (i: nat, k: nat)
    requires Legal(Start(size), es) && Enabled(Run(Start(size), es), ConnectNext(t))
    ensures i < |es| && es[i].ConnectBegin? && es[i].t == t && forall j | i < j < |es| :: !Samples(es[j], t)
    ensures k < |es[i].order| && Run(Start(size), es).creators[t].rest == es[i].order[k..]
    ensures var s := Run(Start(size), es);
      var s' := Next(s, ConnectNext(t));
      if es[i].order[k] in Run(Start(size), es[..i]).published then
        s' == SetCreator(s, t, s.creators[t].(rest := es[i].order[k + 1..]))
      else
        s'.creators[t].Building? && s'.creators[t].service == es[i].order[k] && |s'.pools| == |s.pools| + 1
  {
    i, k := ListedAt(size, es, t);
  }
}
