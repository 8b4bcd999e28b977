/**
 Lease registration and recovery of grpc/etcd.go over a small etcd: keys attached to leases, a set
 of live leases, and calls that can fail with or without having taken effect.

 Register, Deregister, Close and the recovery attempts of the keepalive loops each hold operationMu
 from start to end and are the only writers of the registry's fields, so each is one step here.
 Between and inside those steps any lease may expire.
*/
module EtcdRegistration {
  import opened Common
  import opened EtcdKeys

  type Lease = nat    // 0 means none
  type Ctx = nat      // a keepalive context

  // ---------------------------------------------------------------- etcd

  datatype Entry = Entry(lease: Lease, value: string)

  datatype Store = Store(kvs: map<string, Entry>, live: set<Lease>, granted: nat)

  /** What became of a call: done; done although the caller saw an error; not done. */
  datatype Outcome = Done | DoneUnseen | NotDone

  /** A call, together with the leases that expire before the server gets to it. */
  datatype Rpc = Rpc(expired: set<Lease>, outcome: Outcome)

  /** A call under a cancelled context never leaves the client. */
  function Under(alive: bool, c: Rpc): Rpc {
    if alive then c else c.(outcome := NotDone)
  }

  function Expire(st: Store, gone: set<Lease>): Store {
    st.(live := st.live - gone, kvs := map k | k in st.kvs && st.kvs[k].lease !in gone :: st.kvs[k])
  }

  function Grant(st: Store, c: Rpc): Store {
    var s1 := Expire(st, c.expired);
    if c.outcome.NotDone? then s1 else s1.(granted := s1.granted + 1, live := s1.live + {s1.granted + 1})
  }

  /** Attaching a key to a lease that has expired is refused. */
  predicate PutLands(st: Store, lease: Lease, c: Rpc) {
    !c.outcome.NotDone? && lease in st.live && lease !in c.expired
  }

  function Put(st: Store, key: string, entry: Entry, c: Rpc): Store {
    var s1 := Expire(st, c.expired);
    if PutLands(st, entry.lease, c) then s1.(kvs := s1.kvs[key := entry]) else s1
  }

  function Revoke(st: Store, lease: Lease, c: Rpc): Store {
    var s1 := Expire(st, c.expired);
    if c.outcome.NotDone? then s1 else Expire(s1, {lease})
  }

  function Delete(st: Store, key: string, c: Rpc): Store {
    var s1 := Expire(st, c.expired);
    if c.outcome.NotDone? then s1 else s1.(kvs := s1.kvs - {key})
  }

  // ---------------------------------------------------------------- the registry

  datatype Registry = Registry(
    prefix: string,
    leaseID: Lease,
    leaseKeep: Option<Lease>,        // the stream of responses for that lease
    keepAliveCtx: Option<Ctx>,
    keepAliveCancel: Option<Ctx>,    // the context that this function cancels
    registered: bool,
    serviceName: string,
    address: string,
    metadata: string,                // its encoding, empty for no metadata
    closed: bool,
    connected: bool,                 // client != nil
    contexts: nat,                   // contexts made so far
    cancelled: set<Ctx>)

  datatype Node = Node(store: Store, reg: Registry)

  function Key(reg: Registry): string {
    InstanceKey(reg.prefix, reg.serviceName, reg.address)
  }

  function Value(reg: Registry): string {
    if reg.metadata == "" then reg.address else reg.metadata
  }

  predicate Active(reg: Registry) {
    !reg.closed && reg.registered && reg.connected
  }

  function StopKeepAlive(reg: Registry): Registry {
    reg.(keepAliveCancel := None, leaseKeep := None, keepAliveCtx := None,
         cancelled := reg.cancelled + (if reg.keepAliveCancel.Some? then {reg.keepAliveCancel.value} else {}))
  }

  /** What happens to the calls of one establishLease. */
  datatype Luck = Luck(grant: Rpc, put: Rpc, keepAlive: bool, undo: Rpc, retire: Rpc)

  datatype Stage = Inactive | NoLease | NoPut | NoKeepAlive | Established

  /** The call at which establishLease gives up, if it does. */
  function StageOf(n: Node, alive: bool, l: Luck): Stage {
    var g, p := Under(alive, l.grant), Under(alive, l.put);
    if !Active(n.reg) then Inactive
    else if !g.outcome.Done? then NoLease
    else if !(p.outcome.Done? && PutLands(Grant(n.store, g), n.store.granted + 1, p)) then NoPut
    else if !l.keepAlive then NoKeepAlive
    else Established
  }

  /** The store once the key has been put, or could not be. */
  function AfterPut(n: Node, alive: bool, l: Luck): Store {
    var s1 := Grant(n.store, Under(alive, l.grant));
    Put(s1, Key(n.reg), Entry(s1.granted, Value(n.reg)), Under(alive, l.put))
  }

  /** The registry with the new lease and a fresh keepalive context; the old context is cancelled. */
  function Commit(reg: Registry, lease: Lease): Registry {
    reg.(leaseID := lease, leaseKeep := Some(lease), keepAliveCtx := Some(reg.contexts), keepAliveCancel := Some(reg.contexts),
         contexts := reg.contexts + 1,
         cancelled := reg.cancelled + (if reg.keepAliveCancel.Some? then {reg.keepAliveCancel.value} else {}))
  }

  function Establish(n: Node, alive: bool, l: Luck): Node {
    var lease := n.store.granted + 1;
    match StageOf(n, alive, l)
    case Inactive => n
    case NoLease => n.(store := Grant(n.store, Under(alive, l.grant)))
    case NoPut => n.(store := Revoke(AfterPut(n, alive, l), lease, Under(alive, l.undo)))
    case NoKeepAlive =>
      Node(Revoke(AfterPut(n, alive, l), lease, Under(alive, l.undo)),
           n.reg.(contexts := n.reg.contexts + 1, cancelled := n.reg.cancelled + {n.reg.contexts}))
    case Established =>
      var s2 := AfterPut(n, alive, l);
      var former := n.reg.leaseID;
      Node(if former != 0 && former != lease then Revoke(s2, former, l.retire) else s2, Commit(n.reg, lease))
  }

  predicate Accepts(n: Node, service: string, address: string) {
    service != "" && address != "" && !n.reg.closed && n.reg.connected
  }

  /** Register up to the call of establishLease. */
  function Announce(reg: Registry, service: string, address: string, metadata: string): Registry {
    StopKeepAlive(reg).(registered := true, serviceName := service, address := address, metadata := metadata)
  }

  predicate RegisterSucceeds(n: Node, service: string, address: string, metadata: string, alive: bool, l: Luck) {
    && Accepts(n, service, address)
    && StageOf(n.(reg := Announce(n.reg, service, address, metadata)), alive, l).Established?
  }

  function Register(n: Node, service: string, address: string, metadata: string, alive: bool, l: Luck): Node {
    if !Accepts(n, service, address) then n
    else
      var m := Establish(n.(reg := Announce(n.reg, service, address, metadata)), alive, l);
      if RegisterSucceeds(n, service, address, metadata, alive, l) then m else m.(reg := m.reg.(registered := false))
  }

  function Deregister(n: Node, service: string, address: string, revoke: Rpc, delete: Rpc): Node {
    var reg := StopKeepAlive(n.reg).(registered := false, leaseID := 0);
    var key := InstanceKey(n.reg.prefix, service, address);
    if !n.reg.connected then n.(reg := reg)
    else
      var s1 := if n.reg.leaseID != 0 then Revoke(n.store, n.reg.leaseID, revoke) else n.store;
      Node(Delete(s1, key, delete), reg)
  }

  /** The second Close does nothing. */
  function Close(n: Node, revoke: Rpc): Node {
    if n.reg.closed then n
    else
      var reg := StopKeepAlive(n.reg.(closed := true, registered := false)).(leaseID := 0, connected := false);
      if n.reg.connected && n.reg.leaseID != 0 then Node(Revoke(n.store, n.reg.leaseID, revoke), reg) else n.(reg := reg)
  }

  // ---------------------------------------------------------------- the keepalive loops

  /**
   Where a keepalive loop stands: reading the registry; waiting for a response; about to test its
   context; queued for operationMu; waiting for the timer; recovered and about to start its successor.
  */
  datatype Phase = Reading | Watching(stream: Lease) | Testing | Queued | Pausing | Recovered

  datatype Loop = Loop(ctx: Ctx, phase: Phase)

  datatype World = World(node: Node, loops: map<nat, Loop>, spawned: nat)

  datatype Step =
    | DoRegister(service: string, address: string, metadata: string, alive: bool, luck: Luck)
    | DoDeregister(service: string, address: string, revoke: Rpc, delete: Rpc)
    | DoClose(revoke: Rpc)
    | Expiry(gone: set<Lease>)
    | Look(id: nat)             // the loop reads the registry and leaves or waits
    | Respond(id: nat)          // a keepalive response arrives
    | StreamEnds(id: nat)
    | CtxDone(id: nat)          // taken where the loop selects on or tests a cancelled context
    | Proceed(id: nat)          // its context was found alive, or its timer fired
    | Attempt(id: nat, luck: Luck)
    | Succeed(id: nat)          // the recovered loop starts its successor and leaves

  function Spawn(w: World): World {
    var reg := w.node.reg;
    if reg.closed || !reg.registered || reg.keepAliveCancel.None? || reg.keepAliveCtx.None? then w
    else w.(loops := w.loops[w.spawned := Loop(reg.keepAliveCtx.value, Reading)], spawned := w.spawned + 1)
  }

  function Leave(w: World, id: nat): World {
    w.(loops := w.loops - {id})
  }

  function Goto(w: World, id: nat, phase: Phase): World
    requires id in w.loops
  {
    w.(loops := w.loops[id := Loop(w.loops[id].ctx, phase)])
  }

  function CtxAlive(w: World, id: nat): bool
    requires id in w.loops
  {
    w.loops[id].ctx !in w.node.reg.cancelled
  }

  predicate Stays(reg: Registry, ctx: Ctx) {
    !reg.closed && reg.registered && reg.leaseKeep.Some? && reg.keepAliveCtx == Some(ctx)
  }

  predicate ByCaller(e: Step) {
    e.DoRegister? || e.DoDeregister? || e.DoClose? || e.Expiry?
  }

  predicate Enabled(w: World, e: Step) {
    if ByCaller(e) then true
    else if e.id !in w.loops then false
    else
      var phase := w.loops[e.id].phase;
      match e
      case Look(_) => phase.Reading?
      case Respond(_) => phase.Watching?
      case StreamEnds(_) => phase.Watching?
      case CtxDone(id) => (phase.Watching? || phase.Testing? || phase.Pausing?) && !CtxAlive(w, id)
      case Proceed(id) => (phase.Testing? && CtxAlive(w, id)) || phase.Pausing?
      case Attempt(_, _) => phase.Queued?
      case Succeed(_) => phase.Recovered?
      case _ => false
  }

  function LoopStep(w: World, e: Step): World
    requires !ByCaller(e) && Enabled(w, e)
  {
    match e
    case Look(id) =>
      if Stays(w.node.reg, w.loops[id].ctx) then Goto(w, id, Watching(w.node.reg.leaseKeep.value)) else Leave(w, id)
    case Respond(id) => Goto(w, id, Reading)
    case StreamEnds(id) => Goto(w, id, Testing)
    case CtxDone(id) => Leave(w, id)
    case Proceed(id) => Goto(w, id, if w.loops[id].phase.Testing? then Queued else Testing)
    case Attempt(id, l) =>
      var alive := CtxAlive(w, id);
      Goto(w, id, if StageOf(w.node, alive, l).Established? then Recovered else Pausing).(node := Establish(w.node, alive, l))
    case Succeed(id) => Leave(Spawn(w), id)
    case _ => w
  }

  function Next(w: World, e: Step): World
    requires Enabled(w, e)
  {
    match e
    case DoRegister(s, a, m, alive, l) =>
      var w' := w.(node := Register(w.node, s, a, m, alive, l));
      if RegisterSucceeds(w.node, s, a, m, alive, l) then Spawn(w') else w'
    case DoDeregister(s, a, revoke, delete) => w.(node := Deregister(w.node, s, a, revoke, delete))
    case DoClose(revoke) => w.(node := Close(w.node, revoke))
    case Expiry(gone) => w.(node := w.node.(store := Expire(w.node.store, gone)))
    case _ => LoopStep(w, e)
  }

  ghost predicate Legal(w: World, es: seq<Step>) {
    |es| > 0 ==> Legal(w, es[..|es| - 1]) && Enabled(Run(w, es[..|es| - 1]), es[|es| - 1])
  }

  ghost function Run(w: World, es: seq<Step>): World {
    if |es| == 0 then w
    else
      var v, e := Run(w, es[..|es| - 1]), es[|es| - 1];
      if Enabled(v, e) then Next(v, e) else v
  }

  function Fresh(prefix: string): Registry {
    Registry(prefix, 0, None, None, None, false, "", "", "", false, true, 0, {})
  }

  function Start(prefix: string): World {
    World(Node(Store(map[], {}, 0), Fresh(prefix)), map[], 0)
  }

  // ---------------------------------------------------------------- invariants

  /** Keys hang on live leases, and lease numbers are never reused. */
  ghost predicate StoreInv(st: Store) {
    && (forall k | k in st.kvs :: st.kvs[k].lease in st.live)
    && (forall i | i in st.live :: 0 < i <= st.granted)
  }

  /** At most the registry's own keepalive context is alive, and only while it is registered. */
  ghost predicate RegInv(reg: Registry) {
    && reg.keepAliveCtx == reg.keepAliveCancel
    && (reg.keepAliveCtx.Some? ==> Active(reg) && reg.leaseID != 0 && reg.leaseKeep == Some(reg.leaseID))
    && (forall c: Ctx | c < reg.contexts :: c in reg.cancelled <==> reg.keepAliveCtx != Some(c))
    && (forall c | c in reg.cancelled :: c < reg.contexts)
    && (reg.keepAliveCtx.Some? ==> reg.keepAliveCtx.value < reg.contexts)
  }

  ghost predicate NodeInv(n: Node) {
    StoreInv(n.store) && RegInv(n.reg) && n.reg.leaseID <= n.store.granted
  }

  ghost predicate Inv(w: World) {
    && NodeInv(w.node)
    && (forall id | id in w.loops :: w.loops[id].ctx < w.node.reg.contexts)
  }

  lemma StopKeeps(reg: Registry)
    requires RegInv(reg)
    ensures RegInv(StopKeepAlive(reg)) && StopKeepAlive(reg).keepAliveCtx.None?
  {
  }

  lemma AfterPutKeeps(n: Node, alive: bool, l: Luck)
    requires StoreInv(n.store)
    ensures StoreInv(AfterPut(n, alive, l)) && AfterPut(n, alive, l).granted >= n.store.granted
  {
  }

  lemma RevokeKeeps(st: Store, lease: Lease, c: Rpc)
    requires StoreInv(st)
    ensures StoreInv(Revoke(st, lease, c)) && Revoke(st, lease, c).granted == st.granted
  {
  }

  lemma CommitKeeps(reg: Registry, lease: Lease)
    requires RegInv(reg) && Active(reg) && lease != 0
    ensures RegInv(Commit(reg, lease))
  {
  }

  lemma FreshContextCancelled(reg: Registry)
    requires RegInv(reg)
    ensures RegInv(reg.(contexts := reg.contexts + 1, cancelled := reg.cancelled + {reg.contexts}))
  {
  }

  lemma GrantNumbers(st: Store, c: Rpc)
    ensures c.outcome.Done? ==> Grant(st, c).granted == st.granted + 1
  {
  }

  lemma EstablishKeeps(n: Node, alive: bool, l: Luck)
    requires NodeInv(n)
    ensures NodeInv(Establish(n, alive, l))
    ensures Establish(n, alive, l).reg.contexts >= n.reg.contexts
  {
    var s2, lease := AfterPut(n, alive, l), n.store.granted + 1;
    AfterPutKeeps(n, alive, l);
    RevokeKeeps(s2, lease, Under(alive, l.undo));
    RevokeKeeps(s2, n.reg.leaseID, l.retire);
    FreshContextCancelled(n.reg);
    if StageOf(n, alive, l).Established? {
      CommitKeeps(n.reg, lease);
      GrantNumbers(n.store, Under(alive, l.grant));
    }
  }

  lemma CallersKeep(w: World, e: Step)
    requires Inv(w) && ByCaller(e)
    ensures Inv(Next(w, e))
  {
    StopKeeps(w.node.reg);
    match e
    case DoRegister(s, a, m, alive, l) =>
      if Accepts(w.node, s, a) {
        var n := w.node.(reg := Announce(w.node.reg, s, a, m));
        assert NodeInv(n);
        EstablishKeeps(n, alive, l);
      }
    case DoDeregister(_, _, _, _) =>
    case DoClose(_) =>
    case Expiry(_) =>
  }

  lemma LoopsKeep(w: World, e: Step)
    requires Inv(w) && !ByCaller(e) && Enabled(w, e)
    ensures Inv(Next(w, e))
  {
    if e.Attempt? { EstablishKeeps(w.node, CtxAlive(w, e.id), e.luck); }
  }

  lemma {:induction false} InvAlways(w: World, es: seq<Step>)
    requires Inv(w) && Legal(w, es)
    ensures Inv(Run(w, es))
  {
    if |es| > 0 {
      InvAlways(w, es[..|es| - 1]);
      var v, e := Run(w, es[..|es| - 1]), es[|es| - 1];
      if ByCaller(e) { CallersKeep(v, e); } else { LoopsKeep(v, e); }
    }
  }

  // ---------------------------------------------------------------- what one establishLease guarantees

  /**
   A successful establishLease leaves the key on the new lease for as long as that lease lives:
   retiring the former lease cannot delete it, and where the retirement took effect nothing else
   of the former lease remains.
  */
  lemma EstablishBindsTheKey(n: Node, alive: bool, l: Luck)
    requires NodeInv(n) && StageOf(n, alive, l).Established?
    ensures var m := Establish(n, alive, l);
      && m.reg.leaseID == n.store.granted + 1 && m.reg.leaseID !in n.store.live
      && (m.reg.leaseID in m.store.live ==>
            Key(n.reg) in m.store.kvs && m.store.kvs[Key(n.reg)] == Entry(m.reg.leaseID, Value(n.reg)))
      && (n.reg.leaseID != 0 && !l.retire.outcome.NotDone? ==>
            n.reg.leaseID !in m.store.live && forall k | k in m.store.kvs :: m.store.kvs[k].lease != n.reg.leaseID)
  {
  }

  /** With no lease expiring meanwhile, the key that was bound stays bound at every moment of it. */
  lemma EstablishLeavesNoGap(n: Node, alive: bool, l: Luck)
    requires NodeInv(n) && StageOf(n, alive, l).Established?
    requires Key(n.reg) in n.store.kvs
    requires l.grant.expired == l.put.expired == l.retire.expired == {}
    ensures Key(n.reg) in Grant(n.store, l.grant).kvs
    ensures Key(n.reg) in AfterPut(n, alive, l).kvs
    ensures Key(n.reg) in Establish(n, alive, l).store.kvs
  {
  }

  /**
   A failed establishLease does not always leave the former registration in place. The old binding
   survives exactly when the put did not land, although the former lease lives throughout.
  */
  lemma FailureKeepsTheKeyIff(n: Node, alive: bool, l: Luck)
    requires NodeInv(n) && Active(n.reg) && !StageOf(n, alive, l).Established?
    requires Key(n.reg) in n.store.kvs && n.store.kvs[Key(n.reg)].lease == n.reg.leaseID
    requires n.reg.leaseID !in l.grant.expired + l.put.expired + l.undo.expired
    ensures var m, lease := Establish(n, alive, l), n.store.granted + 1;
      var landed := !StageOf(n, alive, l).NoLease? && PutLands(Grant(n.store, l.grant), lease, Under(alive, l.put));
      && m.reg.leaseID == n.reg.leaseID && m.reg.leaseID in m.store.live
      && (Key(n.reg) in m.store.kvs && m.store.kvs[Key(n.reg)].lease == n.reg.leaseID <==> !landed)
      && (landed && lease !in m.store.live ==> Key(n.reg) !in m.store.kvs)
  {
  }

  /** So an error from KeepAlive with every other call succeeding unpublishes a healthy instance. */
  lemma KeepAliveErrorUnpublishes(n: Node, l: Luck)
    requires NodeInv(n) && Active(n.reg)
    requires Key(n.reg) in n.store.kvs && n.store.kvs[Key(n.reg)].lease == n.reg.leaseID
    requires l == Luck(Rpc({}, Done), Rpc({}, Done), false, Rpc({}, Done), l.retire)
    ensures var m := Establish(n, true, l);
      m.reg.leaseID == n.reg.leaseID && m.reg.leaseID in m.store.live && Key(n.reg) !in m.store.kvs
  {
    assert StageOf(n, true, l).NoKeepAlive?;
    FailureKeepsTheKeyIff(n, true, l);
  }

  /** While the registry keeps a lease alive, its key hangs on that lease for as long as the lease lives. */
  ghost predicate Published(n: Node) {
    n.reg.keepAliveCtx.Some? && n.reg.leaseID in n.store.live ==>
      Key(n.reg) in n.store.kvs && n.store.kvs[Key(n.reg)] == Entry(n.reg.leaseID, Value(n.reg))
  }

  /** A recovery attempt that fails after its put took effect. */
  predicate Spoils(w: World, e: Step) {
    if !e.Attempt? || e.id !in w.loops then false
    else
      var alive := CtxAlive(w, e.id);
      var stage := StageOf(w.node, alive, e.luck);
      var s1 := Grant(w.node.store, Under(alive, e.luck.grant));
      (stage.NoPut? || stage.NoKeepAlive?) && PutLands(s1, s1.granted, Under(alive, e.luck.put))
  }

  /** A registration, or a recovery, that succeeds. */
  predicate Establishes(w: World, e: Step) {
    match e
    case DoRegister(s, a, m, alive, l) => RegisterSucceeds(w.node, s, a, m, alive, l)
    case Attempt(id, l) => id in w.loops && StageOf(w.node, CtxAlive(w, id), l).Established?
    case _ => false
  }

  lemma EstablishmentPublishes(w: World, e: Step)
    requires Inv(w) && Enabled(w, e) && Establishes(w, e)
    ensures Published(Next(w, e).node)
  {
    match e
    case Attempt(id, l) => EstablishBindsTheKey(w.node, CtxAlive(w, id), l);
    case DoRegister(s, a, m, alive, l) =>
      StopKeeps(w.node.reg);
      EstablishBindsTheKey(w.node.(reg := Announce(w.node.reg, s, a, m)), alive, l);
    case _ =>
  }

  lemma PublishedStep(w: World, e: Step)
    requires Inv(w) && Enabled(w, e) && Published(w.node) && !Spoils(w, e)
    ensures Published(Next(w, e).node)
  {
    match e
    case Attempt(id, l) => PublishedAttempt(w, id, l);
    case DoRegister(s, a, m, alive, l) =>
      if RegisterSucceeds(w.node, s, a, m, alive, l) {
        var n := w.node.(reg := Announce(w.node.reg, s, a, m));
        StopKeeps(w.node.reg);
        EstablishBindsTheKey(n, alive, l);
      }
    case _ =>
  }

  lemma PublishedAttempt(w: World, id: nat, l: Luck)
    requires Inv(w) && Enabled(w, Attempt(id, l)) && Published(w.node) && !Spoils(w, Attempt(id, l))
    ensures Published(Next(w, Attempt(id, l)).node)
  {
    if StageOf(w.node, CtxAlive(w, id), l).Established? { EstablishBindsTheKey(w.node, CtxAlive(w, id), l); }
  }

  /**
   Over every run: from the start, or from any establishment on, the instance is published until a
   recovery attempt fails after its put; so its key is missing while the lease lives only between
   such an attempt and the next establishment.
  */
  lemma {:induction false} PublishedSinceEstablishment(prefix: string, es: seq<Step>, j: nat)
    requires Legal(Start(prefix), es) && j <= |es|
    requires j == 0 || Establishes(Run(Start(prefix), es[..j - 1]), es[j - 1])
    requires forall i | j <= i < |es| :: !Spoils(Run(Start(prefix), es[..i]), es[i])
    ensures Published(Run(Start(prefix), es).node)
  {
    if |es| > 0 {
      hide Next, Enabled, Inv, Published, Spoils, Establishes;
      var n := |es| - 1;
      InvAlways(Start(prefix), es[..n]);
      if j == |es| {
        EstablishmentPublishes(Run(Start(prefix), es[..n]), es[n]);
      } else {
        assert j > 0 ==> es[..n][..j - 1] == es[..j - 1];
        forall i | j <= i < n ensures !Spoils(Run(Start(prefix), es[..n][..i]), es[..n][i]) {
          assert es[..n][..i] == es[..i];
        }
        PublishedSinceEstablishment(prefix, es[..n], j);
        PublishedStep(Run(Start(prefix), es[..n]), es[n]);
      }
    } else {
      assert Run(Start(prefix), es) == Start(prefix);
    }
  }

  // ---------------------------------------------------------------- published as the caller asked

  /** Every call of an establishLease has done its work, and the new lease lasts until the put. */
  predicate GoesWell(granted: nat, alive: bool, l: Luck) {
    alive && l.grant.outcome.Done? && l.put.outcome.Done? && granted + 1 !in l.put.expired && l.keepAlive
  }

  /** When Register reports success. */
  lemma RegisterSucceedsIff(w: World, e: Step)
    requires Inv(w) && e.DoRegister?
    ensures RegisterSucceeds(w.node, e.service, e.address, e.metadata, e.alive, e.luck)
      <==> e.service != "" && e.address != "" && !w.node.reg.closed && w.node.reg.connected
           && GoesWell(w.node.store.granted, e.alive, e.luck)
  {
  }

  /** The instance is in the store under its name, on the lease, with its metadata or else its address as value. */
  ghost predicate Listed(st: Store, lease: Lease, prefix: string, e: Step)
    requires e.DoRegister?
  {
    var key := InstanceKey(prefix, e.service, e.address);
    key in st.kvs && st.kvs[key] == Entry(lease, if e.metadata == "" then e.address else e.metadata)
  }

  /** The registry carries on with what Register was given. */
  ghost predicate CarriesOn(reg: Registry, prefix: string, e: Step)
    requires e.DoRegister?
  {
    && reg.keepAliveCtx.Some? && reg.prefix == prefix
    && reg.serviceName == e.service && reg.address == e.address && reg.metadata == e.metadata
  }

  lemma RegisterLists(w: World, e: Step)
    requires Inv(w) && e.DoRegister? && RegisterSucceeds(w.node, e.service, e.address, e.metadata, e.alive, e.luck)
    ensures CarriesOn(Next(w, e).node.reg, w.node.reg.prefix, e) && Published(Next(w, e).node)
  {
    EstablishmentPublishes(w, e);
  }

  lemma RegisterEnabled(w: World, e: Step)
    ensures e.DoRegister? ==> Enabled(w, e)
  {
  }

  lemma CarryingOn(w: World, step: Step, prefix: string, e: Step)
    requires Inv(w) && Enabled(w, step) && (ByCaller(step) ==> step.Expiry?)
    requires e.DoRegister? && CarriesOn(w.node.reg, prefix, e)
    ensures CarriesOn(Next(w, step).node.reg, prefix, e)
  {
  }

  lemma PublishedLists(n: Node, prefix: string, e: Step)
    requires e.DoRegister? && CarriesOn(n.reg, prefix, e) && Published(n) && n.reg.leaseID in n.store.live
    ensures Listed(n.store, n.reg.leaseID, prefix, e)
  {
  }

  lemma {:induction false} CarriesOnAlways(w: World, e: Step, es: seq<Step>)
    requires Inv(w) && e.DoRegister? && RegisterSucceeds(w.node, e.service, e.address, e.metadata, e.alive, e.luck)
    requires Legal(Next(w, e), es) && forall i | 0 <= i < |es| :: ByCaller(es[i]) ==> es[i].Expiry?
    requires forall i | 0 <= i < |es| :: !Spoils(Run(Next(w, e), es[..i]), es[i])
    ensures CarriesOn(Run(Next(w, e), es).node.reg, w.node.reg.prefix, e) && Published(Run(Next(w, e), es).node)
  {
    hide Next, Enabled, Inv, Published, Spoils, CarriesOn;
    RegisterEnabled(w, e);
    CallersKeep(w, e);
    if |es| == 0 {
      RegisterLists(w, e);
    } else {
      var n := |es| - 1;
      forall i | 0 <= i < n ensures !Spoils(Run(Next(w, e), es[..n][..i]), es[..n][i]) {
        assert es[..n][..i] == es[..i];
      }
      CarriesOnAlways(w, e, es[..n]);
      InvAlways(Next(w, e), es[..n]);
      CarryingOn(Run(Next(w, e), es[..n]), es[n], w.node.reg.prefix, e);
      PublishedStep(Run(Next(w, e), es[..n]), es[n]);
    }
  }

  /**
   What the caller asked for: after a Register that succeeded, and until a caller's next operation,
   the instance is listed under exactly the service name and address given, in every run without a
   recovery that fails after its put, for as long as the current lease lives.
  */
  lemma {:induction false} RegisteredAsAsked(w: World, e: Step, es: seq<Step>)
    requires Inv(w) && e.DoRegister? && RegisterSucceeds(w.node, e.service, e.address, e.metadata, e.alive, e.luck)
    requires Legal(Next(w, e), es) && forall i | 0 <= i < |es| :: ByCaller(es[i]) ==> es[i].Expiry?
    requires forall i | 0 <= i < |es| :: !Spoils(Run(Next(w, e), es[..i]), es[i])
    ensures var n := Run(Next(w, e), es).node;
      var key := InstanceKey(w.node.reg.prefix, e.service, e.address);
      n.reg.leaseID in n.store.live ==>
        key in n.store.kvs && n.store.kvs[key] == Entry(n.reg.leaseID, if e.metadata == "" then e.address else e.metadata)
  {
    hide Next, Inv, Published, Spoils, CarriesOn;
    CarriesOnAlways(w, e, es);
    var n := Run(Next(w, e), es).node;
    if n.reg.leaseID in n.store.live { PublishedLists(n, w.node.reg.prefix, e); }
  }

  /** And so a lookup of the service finds it and reads the address back. */
  lemma {:induction false} RegisteredIsFound(w: World, e: Step, es: seq<Step>) returns (key: string)
    requires Inv(w) && e.DoRegister? && RegisterSucceeds(w.node, e.service, e.address, e.metadata, e.alive, e.luck)
    requires Legal(Next(w, e), es) && forall i | 0 <= i < |es| :: ByCaller(es[i]) ==> es[i].Expiry?
    requires forall i | 0 <= i < |es| :: !Spoils(Run(Next(w, e), es[..i]), es[i])
    requires var n := Run(Next(w, e), es).node; n.reg.leaseID in n.store.live
    requires w.node.reg.prefix != "" && Tidy(e.service) && Plain(e.address)
    ensures key in Run(Next(w, e), es).node.store.kvs
    ensures ServicePrefix(w.node.reg.prefix, e.service) <= key && Base(key) == e.address
  {
    hide Next, Inv, Spoils, InstanceKey, ServicePrefix, Base, RegisterSucceeds;
    RegisteredAsAsked(w, e, es);
    key := InstanceKey(w.node.reg.prefix, e.service, e.address);
    TidyLookup(w.node.reg.prefix, e.service, e.service, e.address);
    AddressIsReadBackIff(w.node.reg.prefix, e.service, e.address);
  }

  // ---------------------------------------------------------------- no resurrection

  /** Nothing new in the store: no key, no binding, no lease. */
  ghost predicate Shrinks(a: Store, b: Store) {
    && b.granted == a.granted
    && b.live <= a.live
    && (forall k | k in b.kvs :: k in a.kvs && a.kvs[k] == b.kvs[k])
  }

  lemma DormantStep(w: World, e: Step)
    requires Inv(w) && Enabled(w, e) && !w.node.reg.registered
    requires e.DoRegister? ==> w.node.reg.closed
    ensures !Next(w, e).node.reg.registered && Shrinks(w.node.store, Next(w, e).node.store)
    ensures w.node.reg.closed ==> Next(w, e).node.reg.closed
  {
  }

  /**
   Once the registry is deregistered, and until the next Register, no keepalive loop in whatever
   state, and no Deregister or Close, puts a key back or takes out a lease. Once it is closed,
   Register cannot either.
  */
  lemma {:induction false} NoResurrection(w: World, es: seq<Step>)
    requires Inv(w) && Legal(w, es) && !w.node.reg.registered
    requires w.node.reg.closed || forall i | 0 <= i < |es| :: !es[i].DoRegister?
    ensures !Run(w, es).node.reg.registered && Shrinks(w.node.store, Run(w, es).node.store)
    ensures w.node.reg.closed ==> Run(w, es).node.reg.closed
  {
    if |es| > 0 {
      NoResurrection(w, es[..|es| - 1]);
      InvAlways(w, es[..|es| - 1]);
      DormantStep(Run(w, es[..|es| - 1]), es[|es| - 1]);
    }
  }

  /** A Deregister that reported success keeps its key away until the next Register. */
  lemma {:induction false} DeregisteredStaysAway(w: World, e: Step, es: seq<Step>)
    requires Inv(w) && e.DoDeregister? && w.node.reg.connected && e.delete.outcome.Done?
    requires Legal(Next(w, e), es) && forall i | 0 <= i < |es| :: !es[i].DoRegister?
    ensures InstanceKey(w.node.reg.prefix, e.service, e.address) !in Run(Next(w, e), es).node.store.kvs
  {
    CallersKeep(w, e);
    NoResurrection(Next(w, e), es);
  }

  /**
   A Close whose revocation took effect removes every key of the lease for good, whoever calls what,
   and also when the last Register had failed.
  */
  lemma {:induction false} ClosedStaysAway(w: World, e: Step, es: seq<Step>)
    requires Inv(w) && e.DoClose? && !w.node.reg.closed && w.node.reg.connected && !e.revoke.outcome.NotDone?
    requires Legal(Next(w, e), es)
    ensures forall k | k in Run(Next(w, e), es).node.store.kvs :: Run(Next(w, e), es).node.store.kvs[k].lease != w.node.reg.leaseID
  {
    CallersKeep(w, e);
    NoResurrection(Next(w, e), es);
  }

  // ---------------------------------------------------------------- a Register that fails over an earlier one

  /** The leases that expire while a failing establishLease makes its calls. */
  function GoneDuring(n: Node, alive: bool, l: Luck): set<Lease> {
    if StageOf(n, alive, l).NoLease? then l.grant.expired else l.grant.expired + l.put.expired + l.undo.expired
  }

  /** The entry that a failing establishLease has replaced, if its put landed. */
  predicate Replaced(n: Node, alive: bool, l: Luck, k: string) {
    var s1 := Grant(n.store, Under(alive, l.grant));
    k == Key(n.reg) && !StageOf(n, alive, l).NoLease? && PutLands(s1, s1.granted, Under(alive, l.put))
  }

  lemma FailureLeavesIff(n: Node, alive: bool, l: Luck, k: string)
    requires NodeInv(n) && Active(n.reg) && !StageOf(n, alive, l).Established?
    requires k in n.store.kvs
    ensures var st := Establish(n, alive, l).store;
      (k in st.kvs && st.kvs[k] == n.store.kvs[k])
      <==> n.store.kvs[k].lease !in GoneDuring(n, alive, l) && !Replaced(n, alive, l, k)
  {
    hide Key, Value, Commit;
  }

  /**
   A Register that fails stops the keepalive but keeps the former lease: each key of that lease
   stays published, with nothing to renew it, exactly unless the lease expired meanwhile or the
   failing put had replaced the key.
  */
  lemma FailedRegisterStrandsIff(w: World, e: Step, k: string)
    requires Inv(w) && e.DoRegister? && Accepts(w.node, e.service, e.address)
    requires !RegisterSucceeds(w.node, e.service, e.address, e.metadata, e.alive, e.luck)
    requires k in w.node.store.kvs && w.node.store.kvs[k].lease == w.node.reg.leaseID
    ensures var reg := Next(w, e).node.reg;
      && reg.leaseID == w.node.reg.leaseID && !reg.registered && reg.keepAliveCtx.None? && reg.leaseKeep.None?
      && (forall c: Ctx | c < reg.contexts :: c in reg.cancelled) && Next(w, e).loops == w.loops
    ensures var n := w.node.(reg := Announce(w.node.reg, e.service, e.address, e.metadata));
      var st := Next(w, e).node.store;
      (k in st.kvs && st.kvs[k] == w.node.store.kvs[k])
      <==> w.node.reg.leaseID !in GoneDuring(n, e.alive, e.luck) && !Replaced(n, e.alive, e.luck, k)
  {
    CallersKeep(w, e);
    StopKeeps(w.node.reg);
    FailureLeavesIff(w.node.(reg := Announce(w.node.reg, e.service, e.address, e.metadata)), e.alive, e.luck, k);
  }

  predicate Expires(e: Step, lease: Lease) {
    e.Expiry? && lease in e.gone
  }

  lemma StrandedStep(w: World, e: Step, k: string)
    requires Inv(w) && Enabled(w, e) && !w.node.reg.registered && (ByCaller(e) ==> e.Expiry?)
    ensures !Next(w, e).node.reg.registered && Shrinks(w.node.store, Next(w, e).node.store)
    ensures k in w.node.store.kvs ==> (k in Next(w, e).node.store.kvs <==> !Expires(e, w.node.store.kvs[k].lease))
  {
  }

  /** Such a key goes away with its lease and not before: no loop renews, moves or removes it. */
  lemma {:induction false} StrandedUntilExpiry(w: World, es: seq<Step>, k: string)
    requires Inv(w) && Legal(w, es) && !w.node.reg.registered && k in w.node.store.kvs
    requires forall i | 0 <= i < |es| :: ByCaller(es[i]) ==> es[i].Expiry?
    ensures !Run(w, es).node.reg.registered && Shrinks(w.node.store, Run(w, es).node.store)
    ensures k in Run(w, es).node.store.kvs <==> forall i | 0 <= i < |es| :: !Expires(es[i], w.node.store.kvs[k].lease)
  {
    if |es| > 0 {
      hide Next, Enabled, Inv, Expires;
      var n := |es| - 1;
      StrandedUntilExpiry(w, es[..n], k);
      InvAlways(w, es[..n]);
      StrandedStep(Run(w, es[..n]), es[n], k);
      assert forall i | 0 <= i < n :: es[..n][i] == es[i];
    }
  }

  // ---------------------------------------------------------------- keepalive loops

  /** An attempt by a loop whose context is no longer the registry's changes nothing but by expiry. */
  lemma StaleLoopIsHarmless(w: World, e: Step)
    requires Inv(w) && e.Attempt? && Enabled(w, e) && w.node.reg.keepAliveCtx != Some(w.loops[e.id].ctx)
    ensures Next(w, e).node.reg == w.node.reg && Next(w, e).loops[e.id].phase == Pausing
    ensures Shrinks(w.node.store, Next(w, e).node.store)
  {
  }

  lemma CancelledStays(w: World, e: Step, c: Ctx)
    requires Inv(w) && Enabled(w, e) && c in w.node.reg.cancelled
    ensures c in Next(w, e).node.reg.cancelled
    ensures e.Attempt? && w.loops[e.id].ctx == c ==> Next(w, e).loops[e.id].phase == Pausing
  {
  }

  lemma {:induction false} CancelledForever(w: World, es: seq<Step>, c: Ctx)
    requires Inv(w) && Legal(w, es) && c in w.node.reg.cancelled
    ensures c in Run(w, es).node.reg.cancelled
  {
    if |es| > 0 {
      CancelledForever(w, es[..|es| - 1], c);
      InvAlways(w, es[..|es| - 1]);
      CancelledStays(Run(w, es[..|es| - 1]), es[|es| - 1], c);
    }
  }

  /**
   Several loops can share a context, but a context recovers once: after one successful attempt
   under it every later one under it fails, in every run.
  */
  lemma {:induction false} OneRecoveryPerContext(w: World, first: Step, es: seq<Step>, second: Step)
    requires Inv(w) && first.Attempt? && Enabled(w, first) && Next(w, first).loops[first.id].phase.Recovered?
    requires Legal(Next(w, first), es) && second.Attempt? && Enabled(Run(Next(w, first), es), second)
    requires Run(Next(w, first), es).loops[second.id].ctx == w.loops[first.id].ctx
    ensures Next(Run(Next(w, first), es), second).loops[second.id].phase == Pausing
  {
    LoopsKeep(w, first);
    CancelledForever(Next(w, first), es, w.loops[first.id].ctx);
    InvAlways(Next(w, first), es);
    CancelledStays(Run(Next(w, first), es), second, w.loops[first.id].ctx);
  }

  /**
   A loop whose context has been cancelled comes to its end: wherever it stands, its own next two
   steps are enough, whatever etcd answers.
  */
  lemma {:induction false} StaleLoopEnds(prefix: string, es: seq<Step>, id: nat, l: Luck) returns (fs: seq<Step>)
    requires Legal(Start(prefix), es) && id in Run(Start(prefix), es).loops && !CtxAlive(Run(Start(prefix), es), id)
    ensures |fs| <= 2 && Legal(Start(prefix), es + fs) && id !in Run(Start(prefix), es + fs).loops
    ensures forall e | e in fs :: !ByCaller(e) && e.id == id
  {
    hide Next, Inv, Enabled, CtxAlive, Legal, Run;
    var w, v := Start(prefix), Run(Start(prefix), es);
    StartKeeps(prefix);
    InvAlways(w, es);
    Numbered(prefix, es);
    if v.loops[id].phase.Queued? {
      StaleAttempt(v, id, l);
      RunExtends(w, es, Attempt(id, l));
      StaleLeaves(Next(v, Attempt(id, l)), id);
      RunExtends(w, es + [Attempt(id, l)], CtxDone(id));
      fs := [Attempt(id, l), CtxDone(id)];
      assert es + fs == es + [Attempt(id, l)] + [CtxDone(id)];
    } else {
      StaleLeaves(v, id);
      var e := LastStep(v.loops[id].phase, id);
      RunExtends(w, es, e);
      fs := [e];
    }
  }

  /** How a stale loop leaves from each of the places where it does not wait for operationMu. */
  function LastStep(phase: Phase, id: nat): Step {
    if phase.Reading? then Look(id) else if phase.Recovered? then Succeed(id) else CtxDone(id)
  }

  lemma StaleLeaves(v: World, id: nat)
    requires Inv(v) && id in v.loops && !CtxAlive(v, id) && !v.loops[id].phase.Queued? && id < v.spawned
    ensures var e := LastStep(v.loops[id].phase, id);
      Enabled(v, e) && id !in Next(v, e).loops
  {
  }

  lemma StaleAttempt(v: World, id: nat, l: Luck)
    requires Inv(v) && id in v.loops && !CtxAlive(v, id) && v.loops[id].phase.Queued?
    ensures var e := Attempt(id, l);
      && Enabled(v, e) && Inv(Next(v, e)) && id in Next(v, e).loops && Next(v, e).loops[id].phase.Pausing?
      && !CtxAlive(Next(v, e), id) && Next(v, e).spawned == v.spawned
  {
    LoopsKeep(v, Attempt(id, l));
    CancelledStays(v, Attempt(id, l), v.loops[id].ctx);
  }

  lemma SmoothAttempt(w: World, id: nat)
    requires Inv(w) && id in w.loops && w.loops[id].phase.Queued? && CtxAlive(w, id)
    ensures Enabled(w, Attempt(id, Smooth()))
    ensures var v := Next(w, Attempt(id, Smooth()));
      && v.loops[id].phase.Recovered? && v.node.reg.leaseID in v.node.store.live
      && Key(v.node.reg) in v.node.store.kvs
      && v.node.store.kvs[Key(v.node.reg)] == Entry(v.node.reg.leaseID, Value(v.node.reg))
  {
    assert Active(w.node.reg);
    EstablishBindsTheKey(w.node, true, Smooth());
  }

  function StepsToGo(phase: Phase): nat {
    if phase.Queued? then 1 else if phase.Testing? then 2 else 3
  }

  /**
   A loop that lost its stream under the current context republishes the key, whatever has become
   of key and lease meanwhile: three steps are enough once the calls to etcd succeed.
  */
  lemma {:induction false} RecoveryRepublishes(w: World, es: seq<Step>, id: nat) returns (fs: seq<Step>)
    requires Inv(w) && Legal(w, es) && id in Run(w, es).loops && CtxAlive(Run(w, es), id)
    requires var phase := Run(w, es).loops[id].phase; phase.Testing? || phase.Queued? || phase.Pausing?
    ensures |fs| <= StepsToGo(Run(w, es).loops[id].phase) <= 3 && Legal(w, es + fs)
    ensures var n := Run(w, es + fs).node;
      n.reg.leaseID in n.store.live && Key(n.reg) in n.store.kvs && n.store.kvs[Key(n.reg)] == Entry(n.reg.leaseID, Value(n.reg))
    decreases StepsToGo(Run(w, es).loops[id].phase)
  {
    hide Next, Inv, Enabled, StopKeepAlive, Key, Value;
    InvAlways(w, es);
    var v := Run(w, es);
    if v.loops[id].phase.Queued? {
      SmoothAttempt(v, id);
      RunExtends(w, es, Attempt(id, Smooth()));
      fs := [Attempt(id, Smooth())];
    } else {
      ProceedStep(v, id);
      RunExtends(w, es, Proceed(id));
      var rest := RecoveryRepublishes(w, es + [Proceed(id)], id);
      fs := [Proceed(id)] + rest;
      Regroup(es, Proceed(id), rest);
    }
  }

  lemma ProceedStep(v: World, id: nat)
    requires id in v.loops && CtxAlive(v, id) && (v.loops[id].phase.Testing? || v.loops[id].phase.Pausing?)
    ensures Enabled(v, Proceed(id))
    ensures var v' := Next(v, Proceed(id));
      id in v'.loops && CtxAlive(v', id) && v'.loops[id].phase == if v.loops[id].phase.Testing? then Queued else Testing
  {
  }

  lemma Regroup(a: seq<Step>, e: Step, c: seq<Step>)
    ensures a + ([e] + c) == (a + [e]) + c
  {
  }

  // ---------------------------------------------------------------- leaked leases

  /** Live leases nobody will revoke any more: they block nothing but last until their time is up. */
  function Orphans(w: World): set<Lease> {
    w.node.store.live - {w.node.reg.leaseID}
  }

  /** 1 when establishLease loses track of a lease: an unseen grant, or a revocation that did not happen. */
  function EstablishFault(n: Node, alive: bool, l: Luck): nat {
    match StageOf(n, alive, l)
    case Inactive => 0
    case NoLease => if Under(alive, l.grant).outcome.DoneUnseen? then 1 else 0
    case NoPut => if Under(alive, l.undo).outcome.NotDone? then 1 else 0
    case NoKeepAlive => if Under(alive, l.undo).outcome.NotDone? then 1 else 0
    case Established => if n.reg.leaseID != 0 && l.retire.outcome.NotDone? then 1 else 0
  }

  function Fault(w: World, e: Step): nat {
    match e
    case DoRegister(s, a, m, alive, l) =>
      if Accepts(w.node, s, a) then EstablishFault(w.node.(reg := Announce(w.node.reg, s, a, m)), alive, l) else 0
    case DoDeregister(_, _, revoke, _) =>
      if w.node.reg.connected && w.node.reg.leaseID != 0 && revoke.outcome.NotDone? then 1 else 0
    case DoClose(revoke) =>
      if !w.node.reg.closed && w.node.reg.connected && w.node.reg.leaseID != 0 && revoke.outcome.NotDone? then 1 else 0
    case Attempt(id, l) => if id in w.loops then EstablishFault(w.node, CtxAlive(w, id), l) else 0
    case _ => 0
  }

  ghost function Faults(w: World, es: seq<Step>): nat {
    if |es| == 0 then 0 else Faults(w, es[..|es| - 1]) + Fault(Run(w, es[..|es| - 1]), es[|es| - 1])
  }

  /** A closed registry has given its lease away; nothing but Close disconnects it. */
  ghost predicate Settled(reg: Registry) {
    reg.connected <==> !reg.closed
  }

  lemma EstablishOrphans(n: Node, alive: bool, l: Luck) returns (lost: Lease)
    requires NodeInv(n)
    ensures var m := Establish(n, alive, l);
      m.store.live - {m.reg.leaseID} <=
        n.store.live - {n.reg.leaseID} + (if EstablishFault(n, alive, l) == 1 then {lost} else {})
  {
    lost := if StageOf(n, alive, l).Established? then n.reg.leaseID else n.store.granted + 1;
  }

  lemma StepOrphans(w: World, e: Step) returns (lost: Lease)
    requires Inv(w) && Settled(w.node.reg) && Enabled(w, e)
    requires w.node.reg.closed ==> w.node.reg.leaseID == 0
    ensures Settled(Next(w, e).node.reg)
    ensures Next(w, e).node.reg.closed ==> Next(w, e).node.reg.leaseID == 0
    ensures Fault(w, e) <= 1
    ensures Orphans(Next(w, e)) <= Orphans(w) + (if Fault(w, e) == 1 then {lost} else {})
  {
    lost := w.node.reg.leaseID;
    match e
    case DoRegister(s, a, m, alive, l) =>
      if Accepts(w.node, s, a) {
        StopKeeps(w.node.reg);
        lost := EstablishOrphans(w.node.(reg := Announce(w.node.reg, s, a, m)), alive, l);
      }
    case Attempt(id, l) => lost := EstablishOrphans(w.node, CtxAlive(w, id), l);
    case _ =>
  }

  lemma SmallerSet(a: set<Lease>, b: set<Lease>)
    requires a <= b
    ensures |a| <= |b|
  {
    assert b == a + (b - a);
  }

  /**
   From a new registry on, the leases it has lost track of never outnumber the calls that failed to
   clean up; in particular, when none did, the only live lease is the current one.
  */
  lemma {:induction false} OrphansAreFaults(prefix: string, es: seq<Step>)
    requires Legal(Start(prefix), es)
    ensures var w := Run(Start(prefix), es);
      && |Orphans(w)| <= Faults(Start(prefix), es)
      && (Faults(Start(prefix), es) == 0 ==> w.node.store.live <= {w.node.reg.leaseID})
      && Settled(w.node.reg) && (w.node.reg.closed ==> w.node.reg.leaseID == 0)
  {
    if |es| > 0 {
      var e := es[|es| - 1];
      OrphansAreFaults(prefix, es[..|es| - 1]);
      InvAlways(Start(prefix), es[..|es| - 1]);
      var v := Run(Start(prefix), es[..|es| - 1]);
      var lost := StepOrphans(v, e);
      SmallerSet(Orphans(Next(v, e)), Orphans(v) + (if Fault(v, e) == 1 then {lost} else {}));
    }
  }

  /** After a Deregister or a Close the registry keeps no lease. */
  lemma GivesUpLease(w: World, e: Step)
    requires Inv(w) && (e.DoDeregister? || e.DoClose?) && (w.node.reg.closed ==> w.node.reg.leaseID == 0)
    ensures Next(w, e).node.reg.leaseID == 0 && Next(w, e).node.reg.keepAliveCtx.None?
  {
  }

  /**
   So from a new registry on, as long as no cleanup has failed, a Deregister or a Close leaves
   nothing behind: no key, no lease, no keepalive.
  */
  lemma {:induction false} LeavesNothingBehind(prefix: string, es: seq<Step>, e: Step)
    requires Legal(Start(prefix), es) && (e.DoDeregister? || e.DoClose?)
    requires Faults(Start(prefix), es + [e]) == 0
    ensures var n := Run(Start(prefix), es + [e]).node;
      n.store.kvs == map[] && n.store.live == {} && n.reg.leaseID == 0 && n.reg.keepAliveCtx.None?
  {
    hide Next, Enabled, Inv, Faults;
    CallersEnabled(Run(Start(prefix), es), e);
    RunExtends(Start(prefix), es, e);
    OrphansAreFaults(prefix, es);
    OrphansAreFaults(prefix, es + [e]);
    StartKeeps(prefix);
    InvAlways(Start(prefix), es);
    InvAlways(Start(prefix), es + [e]);
    GivesUpLease(Run(Start(prefix), es), e);
    NoLeaseNoKey(Run(Start(prefix), es + [e]));
  }

  lemma CallersEnabled(w: World, e: Step)
    ensures ByCaller(e) ==> Enabled(w, e)
  {
  }

  lemma StartKeeps(prefix: string)
    ensures Inv(Start(prefix))
  {
  }

  lemma NoLeaseNoKey(w: World)
    requires Inv(w) && w.node.store.live <= {0}
    ensures w.node.store.live == {} && w.node.store.kvs == map[]
  {
  }

  // ---------------------------------------------------------------- never unattended

  /** The current keepalive context has a loop, or one that has recovered is about to start its successor. */
  ghost predicate Attended(w: World) {
    w.node.reg.keepAliveCtx.Some? ==>
      exists id :: id in w.loops && (w.loops[id].phase.Recovered? || w.loops[id].ctx == w.node.reg.keepAliveCtx.value)
  }

  ghost predicate AttendedBy(w: World, id: nat) {
    id in w.loops && (w.loops[id].phase.Recovered? || Some(w.loops[id].ctx) == w.node.reg.keepAliveCtx)
  }

  lemma SpawnAttends(w: World)
    requires RegInv(w.node.reg)
    ensures w.node.reg.keepAliveCtx.Some? ==> AttendedBy(Spawn(w), w.spawned)
  {
  }

  lemma CallersAttend(w: World, e: Step)
    requires Inv(w) && ByCaller(e) && Attended(w)
    ensures Attended(Next(w, e))
  {
    hide Expire, Grant, Put, Revoke, Delete, Key, Value;
    if e.DoRegister? {
      CallersKeep(w, e);
      SpawnAttends(w.(node := Register(w.node, e.service, e.address, e.metadata, e.alive, e.luck)));
    }
  }

  lemma LoopsAttend(w: World, e: Step)
    requires Inv(w) && !ByCaller(e) && Enabled(w, e) && Attended(w)
    requires forall id | id in w.loops :: id < w.spawned
    ensures Attended(Next(w, e))
  {
    hide Expire, Grant, Put, Revoke, Delete, Key, Value;
    if w.node.reg.keepAliveCtx.Some? {
      var id :| id in w.loops && (w.loops[id].phase.Recovered? || w.loops[id].ctx == w.node.reg.keepAliveCtx.value);
      if e.Succeed? {
        SpawnAttends(w);
        assert AttendedBy(Next(w, e), w.spawned);
      } else if e.Attempt? && Next(w, e).loops[e.id].phase.Recovered? {
        assert AttendedBy(Next(w, e), e.id);
      } else {
        assert AttendedBy(Next(w, e), id);
      }
    }
  }

  /**
   Over every run: whenever the registry has a keepalive context, some loop is at work under it or has
   just replaced it and is about to start the next. No run leaves a registered instance unattended.
  */
  lemma {:induction false} NeverUnattended(prefix: string, es: seq<Step>)
    requires Legal(Start(prefix), es)
    ensures Attended(Run(Start(prefix), es))
  {
    if |es| > 0 {
      hide Next, Enabled, Inv, Attended;
      var n := |es| - 1;
      NeverUnattended(prefix, es[..n]);
      StartKeeps(prefix);
      InvAlways(Start(prefix), es[..n]);
      Numbered(prefix, es[..n]);
      var w := Run(Start(prefix), es[..n]);
      if ByCaller(es[n]) { CallersAttend(w, es[n]); } else { LoopsAttend(w, es[n]); }
    } else {
      assert Run(Start(prefix), es) == Start(prefix);
    }
  }

  // ---------------------------------------------------------------- two loops on one context

  lemma RunExtends(w: World, es: seq<Step>, e: Step)
    requires Legal(w, es) && Enabled(Run(w, es), e)
    ensures Legal(w, es + [e]) && Run(w, es + [e]) == Next(Run(w, es), e)
  {
    assert (es + [e])[..|es|] == es;
  }

  ghost predicate SomeRecovered(w: World) {
    exists id :: id in w.loops && w.loops[id].phase.Recovered?
  }

  ghost predicate OwnContexts(w: World) {
    forall i, j | i in w.loops && j in w.loops && w.loops[i].ctx == w.loops[j].ctx :: i == j
  }

  /** Each loop has a context of its own, and the current one is free while a successor is due. */
  ghost predicate LoopsApart(w: World) {
    && (forall id | id in w.loops :: id < w.spawned)
    && OwnContexts(w)
    && (forall i, j | i in w.loops && j in w.loops && w.loops[i].phase.Recovered? ::
          (w.loops[j].phase.Recovered? ==> i == j) && w.node.reg.keepAliveCtx != Some(w.loops[j].ctx))
  }

  /** A caller's registration that succeeds between a recovery and the start of the recovered loop's successor. */
  ghost predicate Interferes(w: World, e: Step) {
    e.DoRegister? && Establishes(w, e) && SomeRecovered(w)
  }

  lemma CallersKeepApart(w: World, e: Step)
    requires Inv(w) && LoopsApart(w) && ByCaller(e) && !Interferes(w, e)
    ensures LoopsApart(Next(w, e))
  {
    hide Expire, Grant, Put, Revoke, Delete, Key, Value;
  }

  lemma LoopsKeepApart(w: World, e: Step)
    requires Inv(w) && LoopsApart(w) && !ByCaller(e) && Enabled(w, e)
    ensures LoopsApart(Next(w, e))
  {
    hide Expire, Grant, Put, Revoke, Delete, Key, Value;
  }

  /**
   Over every run in which no caller's registration interferes, every loop has a context of its own,
   so there is at most one loop on the current one.
  */
  lemma {:induction false} EachLoopItsOwnContext(prefix: string, es: seq<Step>)
    requires Legal(Start(prefix), es)
    requires forall i | 0 <= i < |es| :: !Interferes(Run(Start(prefix), es[..i]), es[i])
    ensures LoopsApart(Run(Start(prefix), es))
  {
    if |es| > 0 {
      hide Next, Enabled, Inv, LoopsApart, Interferes;
      var n := |es| - 1;
      forall i | 0 <= i < n ensures !Interferes(Run(Start(prefix), es[..n][..i]), es[..n][i]) {
        assert es[..n][..i] == es[..i];
      }
      EachLoopItsOwnContext(prefix, es[..n]);
      InvAlways(Start(prefix), es[..n]);
      var w := Run(Start(prefix), es[..n]);
      if ByCaller(es[n]) { CallersKeepApart(w, es[n]); } else { LoopsKeepApart(w, es[n]); }
    } else {
      assert Run(Start(prefix), es) == Start(prefix);
    }
  }

  lemma NumberedStep(w: World, e: Step)
    requires Enabled(w, e) && forall id | id in w.loops :: id < w.spawned
    ensures forall id | id in Next(w, e).loops :: id < Next(w, e).spawned
  {
    hide Expire, Grant, Put, Revoke, Delete, Key, Value;
  }

  lemma {:induction false} Numbered(prefix: string, es: seq<Step>)
    requires Legal(Start(prefix), es)
    ensures forall id | id in Run(Start(prefix), es).loops :: id < Run(Start(prefix), es).spawned
  {
    if |es| > 0 {
      hide Next, Enabled;
      Numbered(prefix, es[..|es| - 1]);
      NumberedStep(Run(Start(prefix), es[..|es| - 1]), es[|es| - 1]);
    }
  }

  lemma DoubleSpawn(w: World, e: Step, id: nat)
    requires Inv(w) && Enabled(w, e) && e.DoRegister? && Establishes(w, e)
    requires (forall i | i in w.loops :: i < w.spawned) && id in w.loops && w.loops[id].phase.Recovered?
    ensures Enabled(Next(w, e), Succeed(id)) && !OwnContexts(Next(Next(w, e), Succeed(id)))
  {
    hide Expire, Grant, Put, Revoke, Delete, Key, Value;
    var v := Next(w, e);
    var u := Next(v, Succeed(id));
    assert w.spawned in u.loops && v.spawned in u.loops && u.loops[w.spawned].ctx == u.loops[v.spawned].ctx;
  }

  /** And whenever one does interfere, starting that successor leaves two loops on one context. */
  lemma {:induction false} InterferenceDoubles(prefix: string, es: seq<Step>, e: Step) returns (id: nat)
    requires Legal(Start(prefix), es) && Enabled(Run(Start(prefix), es), e) && Interferes(Run(Start(prefix), es), e)
    ensures Legal(Start(prefix), es + [e] + [Succeed(id)])
    ensures !OwnContexts(Run(Start(prefix), es + [e] + [Succeed(id)]))
  {
    hide Next, Enabled, Inv, Establishes, OwnContexts;
    var w := Run(Start(prefix), es);
    id :| id in w.loops && w.loops[id].phase.Recovered?;
    InvAlways(Start(prefix), es);
    Numbered(prefix, es);
    DoubleSpawn(w, e, id);
    RunExtends(Start(prefix), es, e);
    RunExtends(Start(prefix), es + [e], Succeed(id));
  }

  /**
   There can be two loops on the registry's own context for as long as it lives: loop 0 recovers,
   the caller registers again before loop 0 starts its successor, and both start one.
  */
  lemma {:induction false} TwoLoopsOnOneContext(prefix: string, service: string, address: string) returns (es: seq<Step>)
    requires service != "" && address != ""
    ensures Legal(Start(prefix), es)
    ensures var w := Run(Start(prefix), es);
      && 1 in w.loops && 2 in w.loops && w.loops[1] == w.loops[2]
      && w.node.reg.keepAliveCtx == Some(w.loops[1].ctx) && w.loops[1].ctx !in w.node.reg.cancelled
  {
    hide Key, Value;
    es := RecoveredOnce(prefix, service, address);
    var luck := Smooth();
    var again := DoRegister(service, address, "", true, luck);
    RunExtends(Start(prefix), es, again);
    es := es + [again];
    RunExtends(Start(prefix), es, Succeed(0));
    es := es + [Succeed(0)];
  }

  function Smooth(): Luck {
    Luck(Rpc({}, Done), Rpc({}, Done), true, Rpc({}, Done), Rpc({}, Done))
  }

  lemma FirstRegistration(prefix: string, service: string, address: string) returns (es: seq<Step>)
    requires service != "" && address != ""
    ensures Legal(Start(prefix), es)
    ensures var w := Run(Start(prefix), es);
      && w.spawned == 1 && w.loops == map[0 := Loop(0, Reading)]
      && Active(w.node.reg) && w.node.reg.keepAliveCtx == w.node.reg.keepAliveCancel == Some(0)
      && w.node.reg.leaseKeep == Some(w.node.reg.leaseID) && w.node.reg.contexts == 1 && w.node.reg.cancelled == {}
  {
    hide Key, Value;
    es := [DoRegister(service, address, "", true, Smooth())];
    assert Run(Start(prefix), []) == Start(prefix);
    RunExtends(Start(prefix), [], es[0]);
    assert [] + es == es;
  }

  lemma SmoothAlone(w: World)
    requires w.loops == map[0 := Loop(0, Queued)] && CtxAlive(w, 0) && Active(w.node.reg)
    requires w.node.reg.keepAliveCancel == Some(0) && w.node.reg.contexts == 1 && w.node.reg.cancelled == {}
    ensures StageOf(w.node, true, Smooth()).Established?
    ensures var reg := Establish(w.node, true, Smooth()).reg;
      && Active(reg) && reg.keepAliveCtx == reg.keepAliveCancel == Some(1) && reg.contexts == 2 && reg.cancelled == {0}
  {
  }

  /** The stream of a lone loop ends and it queues for its attempt. */
  lemma QueuesUp(w: World)
    requires w.loops == map[0 := Loop(0, Reading)] && Active(w.node.reg) && w.node.reg.leaseKeep.Some?
    requires w.node.reg.keepAliveCtx == Some(0) && w.node.reg.cancelled == {}
    ensures Enabled(w, Look(0))
    ensures var w1 := Next(w, Look(0));
      Enabled(w1, StreamEnds(0)) && var w2 := Next(w1, StreamEnds(0));
      Enabled(w2, Proceed(0)) && var w3 := Next(w2, Proceed(0));
      Enabled(w3, Attempt(0, Smooth())) && w3 == w.(loops := map[0 := Loop(0, Queued)])
  {
  }

  lemma AttemptsAlone(w: World)
    requires w.loops == map[0 := Loop(0, Queued)] && CtxAlive(w, 0) && Active(w.node.reg)
    requires w.node.reg.keepAliveCancel == Some(0) && w.node.reg.contexts == 1 && w.node.reg.cancelled == {}
    ensures var v := Next(w, Attempt(0, Smooth()));
      && v.loops == map[0 := Loop(0, Recovered)] && v.spawned == w.spawned && Active(v.node.reg)
      && v.node.reg.keepAliveCtx == v.node.reg.keepAliveCancel == Some(1)
      && v.node.reg.contexts == 2 && v.node.reg.cancelled == {0}
  {
    hide StageOf, Establish;
    SmoothAlone(w);
  }

  lemma RecoveredOnce(prefix: string, service: string, address: string) returns (es: seq<Step>)
    requires service != "" && address != ""
    ensures Legal(Start(prefix), es)
    ensures var w := Run(Start(prefix), es);
      && w.spawned == 1 && w.loops == map[0 := Loop(0, Recovered)]
      && Active(w.node.reg) && w.node.reg.keepAliveCtx == w.node.reg.keepAliveCancel == Some(1)
      && w.node.reg.contexts == 2 && w.node.reg.cancelled == {0}
  {
    hide Next, Enabled;
    var e0 := FirstRegistration(prefix, service, address);
    QueuesUp(Run(Start(prefix), e0));
    RunExtends(Start(prefix), e0, Look(0));
    var e1 := e0 + [Look(0)];
    RunExtends(Start(prefix), e1, StreamEnds(0));
    var e2 := e1 + [StreamEnds(0)];
    RunExtends(Start(prefix), e2, Proceed(0));
    var e3 := e2 + [Proceed(0)];
    AttemptsAlone(Run(Start(prefix), e3));
    RunExtends(Start(prefix), e3, Attempt(0, Smooth()));
    es := e3 + [Attempt(0, Smooth())];
  }

  // ---------------------------------------------------------------- the objects

  /** The etcd cluster as its client sees it; what becomes of a call is a parameter of the call. */
  class Etcd {
    var kvs: map<string, Entry>
    var live: set<Lease>
    var granted: nat

    ghost function View(): Store
      reads this
    {
      Store(kvs, live, granted)
    }

    constructor ()
      ensures View() == Store(map[], {}, 0)
    {
      kvs, live, granted := map[], {}, 0;
    }

    method Lapse(gone: set<Lease>)
      modifies this
      ensures View() == Expire(old(View()), gone)
    {
      live := live - gone;
      kvs := map k | k in kvs && kvs[k].lease !in gone :: kvs[k];
    }

    method GrantLease(alive: bool, c: Rpc) returns (ok: bool, lease: Lease)
      modifies this
      ensures View() == Grant(old(View()), Under(alive, c))
      ensures ok <==> alive && c.outcome.Done?
      ensures ok ==> lease == granted
    {
      Lapse(c.expired);
      if !alive || c.outcome.NotDone? {
        return false, 0;
      }
      granted := granted + 1;
      live := live + {granted};
      return c.outcome.Done?, granted;
    }

    method PutKey(alive: bool, key: string, entry: Entry, c: Rpc) returns (ok: bool)
      modifies this
      ensures View() == Put(old(View()), key, entry, Under(alive, c))
      ensures ok <==> alive && c.outcome.Done? && PutLands(old(View()), entry.lease, c)
    {
      Lapse(c.expired);
      if !alive || c.outcome.NotDone? || entry.lease !in live {
        return false;
      }
      kvs := kvs[key := entry];
      return c.outcome.Done?;
    }

    method RevokeLease(alive: bool, lease: Lease, c: Rpc)
      modifies this
      ensures View() == Revoke(old(View()), lease, Under(alive, c))
    {
      Lapse(c.expired);
      if alive && !c.outcome.NotDone? {
        Lapse({lease});
      }
    }

    method DeleteKey(key: string, c: Rpc) returns (ok: bool)
      modifies this
      ensures View() == Delete(old(View()), key, c)
      ensures ok == c.outcome.Done?
    {
      Lapse(c.expired);
      if !c.outcome.NotDone? {
        kvs := kvs - {key};
      }
      return c.outcome.Done?;
    }
  }

  class EtcdRegistry {
    const prefix: string
    const etcd: Etcd
    var leaseID: Lease
    var leaseKeep: Option<Lease>
    var keepAliveCtx: Option<Ctx>
    var keepAliveCancel: Option<Ctx>
    var registered: bool
    var serviceName: string
    var address: string
    var metadata: string
    var closed: bool
    var connected: bool
    var contexts: nat
    var cancelled: set<Ctx>

    ghost function Fields(): Registry
      reads this
    {
      Registry(prefix, leaseID, leaseKeep, keepAliveCtx, keepAliveCancel, registered, serviceName, address, metadata,
               closed, connected, contexts, cancelled)
    }

    ghost function View(): Node
      reads this, etcd
    {
      Node(etcd.View(), Fields())
    }

    constructor (prefix: string, etcd: Etcd)
      ensures this.prefix == prefix && this.etcd == etcd && Fields() == Fresh(prefix)
      ensures etcd.View() == old(etcd.View())
    {
      this.prefix, this.etcd := prefix, etcd;
      leaseID, leaseKeep, keepAliveCtx, keepAliveCancel := 0, None, None, None;
      registered, serviceName, address, metadata := false, "", "", "";
      closed, connected, contexts, cancelled := false, true, 0, {};
    }

    method StopKeepAliveLocked()
      modifies this
      ensures Fields() == StopKeepAlive(old(Fields()))
    {
      if keepAliveCancel.Some? {
        cancelled := cancelled + {keepAliveCancel.value};
        keepAliveCancel := None;
      }
      leaseKeep := None;
      keepAliveCtx := None;
    }

    /** The second test of the registry's state cannot fail, since the caller holds operationMu. */
    method EstablishLease(alive: bool, l: Luck) returns (ok: bool)
      modifies this, etcd
      ensures View() == Establish(old(View()), alive, l)
      ensures ok == StageOf(old(View()), alive, l).Established?
    {
      hide Grant, Put, PutLands, Revoke, Commit;
      GrantNumbers(etcd.View(), Under(alive, l.grant));
      if closed || !registered || !connected {
        return false;
      }
      var granted, lease := etcd.GrantLease(alive, l.grant);
      if !granted {
        return false;
      }
      var value := if metadata == "" then address else metadata;
      var put := etcd.PutKey(alive, InstanceKey(prefix, serviceName, address), Entry(lease, value), l.put);
      if !put {
        etcd.RevokeLease(alive, lease, l.undo);
        return false;
      }
      if !l.keepAlive {
        cancelled := cancelled + {contexts};
        contexts := contexts + 1;
        etcd.RevokeLease(alive, lease, l.undo);
        return false;
      }
      Adopt(lease, l.retire);
      return true;
    }

    /** The end of establishLease: the new lease and context replace the former ones, which are let go. */
    method Adopt(lease: Lease, retire: Rpc)
      modifies this, etcd
      ensures Fields() == Commit(old(Fields()), lease)
      ensures etcd.View() ==
        if old(leaseID) != 0 && old(leaseID) != lease then Revoke(old(etcd.View()), old(leaseID), retire) else old(etcd.View())
    {
      var formerLease, formerCancel := leaseID, keepAliveCancel;
      leaseID := lease;
      leaseKeep := Some(lease);
      keepAliveCtx := Some(contexts);
      keepAliveCancel := Some(contexts);
      contexts := contexts + 1;
      if formerCancel.Some? {
        cancelled := cancelled + {formerCancel.value};
      }
      if formerLease != 0 && formerLease != lease {
        etcd.RevokeLease(true, formerLease, retire);
      }
    }

    method DoRegister(service: string, address: string, metadata: string, alive: bool, l: Luck) returns (ok: bool)
      modifies this, etcd
      ensures View() == Register(old(View()), service, address, metadata, alive, l)
      ensures ok == RegisterSucceeds(old(View()), service, address, metadata, alive, l)
    {
      if service == "" || address == "" {
        return false;
      }
      if closed || !connected {
        return false;
      }
      StopKeepAliveLocked();
      registered := true;
      serviceName := service;
      this.address := address;
      this.metadata := metadata;
      ok := EstablishLease(alive, l);
      if !ok {
        registered := false;
      }
    }

    /** Success means the key was deleted, whatever became of the revocation. */
    method DoDeregister(service: string, address: string, revoke: Rpc, delete: Rpc) returns (ok: bool)
      modifies this, etcd
      ensures View() == Deregister(old(View()), service, address, revoke, delete)
      ensures ok <==> old(connected) && delete.outcome.Done?
    {
      StopKeepAliveLocked();
      registered := false;
      var lease := leaseID;
      leaseID := 0;
      if lease != 0 && connected {
        etcd.RevokeLease(true, lease, revoke);
      }
      if !connected {
        return false;
      }
      ok := etcd.DeleteKey(InstanceKey(prefix, service, address), delete);
    }

    method DoClose(revoke: Rpc)
      modifies this, etcd
      ensures View() == Close(old(View()), revoke)
    {
      if closed {
        return;
      }
      closed := true;
      registered := false;
      StopKeepAliveLocked();
      var lease, wasConnected := leaseID, connected;
      leaseID := 0;
      connected := false;
      if wasConnected && lease != 0 {
        etcd.RevokeLease(true, lease, revoke);
      }
    }

    /** The context a new keepalive loop would run under, if one is to be started. */
    method StartKeepAlive() returns (ctx: Option<Ctx>)
      requires RegInv(Fields())
      ensures forall w: World | w.node.reg == Fields() ::
        Spawn(w) == if ctx.None? then w else w.(loops := w.loops[w.spawned := Loop(ctx.value, Reading)], spawned := w.spawned + 1)
      ensures ctx == keepAliveCtx
    {
      if closed || !registered || keepAliveCancel.None? {
        return None;
      }
      return keepAliveCtx;
    }
  }
}
