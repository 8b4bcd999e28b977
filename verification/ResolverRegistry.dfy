/**
 The process-global resolver registry of grpc/resolver.go: one reference-counted discovery per
 scheme, closed on the last release.

 A discovery is an object identity; its configuration key is passed with every call because some
 discoveries compute it from mutable state.
*/
module ResolverRegistry {
  import opened Common

  type Discovery = nat

  /** What is recorded for a scheme, with what its gRPC builder currently serves. */
  datatype Entry = Entry(key: string, sd: Option<Discovery>, served: Option<Discovery>, refs: nat)

  datatype Answer = Shared(sd: Option<Discovery>) | Conflict

  type Schemes = map<string, Entry>

  // ---------------------------------------------------------------- the two operations

  predicate Conflicts(m: Schemes, scheme: string, key: string) {
    scheme in m && m[scheme].refs > 0 && m[scheme].key != key
  }

  function Register(m: Schemes, scheme: string, sd: Option<Discovery>, key: string): (Schemes, Answer) {
    if Conflicts(m, scheme, key) then (m, Conflict)
    else if scheme in m then
      var e := if m[scheme].refs == 0 then m[scheme].(key := key, sd := sd, served := sd) else m[scheme];
      (m[scheme := e.(refs := e.refs + 1)], Shared(e.sd))
    else (m[scheme := Entry(key, sd, sd, 1)], Shared(sd))
  }

  /** A release counts when it names the stored discovery or the stored key. */
  predicate Matches(m: Schemes, scheme: string, sd: Option<Discovery>, key: string) {
    scheme in m && (m[scheme].sd == sd || m[scheme].key == key)
  }

  predicate ClosesOn(m: Schemes, scheme: string, sd: Option<Discovery>, key: string) {
    Matches(m, scheme, sd, key) && m[scheme].refs <= 1 && m[scheme].sd.Some?
  }

  /** The new registry and whether an error is returned; closeOk is the outcome of Close, if called. */
  function Release(m: Schemes, scheme: string, sd: Option<Discovery>, key: string, closeOk: bool): (Schemes, bool) {
    if !Matches(m, scheme, sd, key) then (m, false)
    else
      var e := if m[scheme].refs > 0 then m[scheme].(refs := m[scheme].refs - 1) else m[scheme];
      if !ClosesOn(m, scheme, sd, key) then (m[scheme := e], false)
      else if !closeOk then (m, true)
      else (m[scheme := e.(sd := None, served := None)], false)
  }

  // ---------------------------------------------------------------- the registry object

  class ResolverBuilder {
    var sd: Option<Discovery>

    constructor (sd: Option<Discovery>)
      ensures this.sd == sd
    {
      this.sd := sd;
    }

    method SetDiscovery(sd: Option<Discovery>)
      modifies this
      ensures this.sd == sd
    {
      this.sd := sd;
    }
  }

  datatype Registered = Registered(key: string, sd: Option<Discovery>, builder: ResolverBuilder, refs: nat)

  class Registry {
    var registeredSchemes: map<string, Registered>

    ghost function Builders(): (bs: set<ResolverBuilder>)
      reads this
      ensures forall s | s in registeredSchemes :: registeredSchemes[s].builder in bs
    {
      set s | s in registeredSchemes :: registeredSchemes[s].builder
    }

    /** Builders cannot be unregistered, so each scheme keeps its own for ever. */
    ghost predicate Valid()
      reads this
    {
      forall s, t | s in registeredSchemes && t in registeredSchemes && s != t ::
        registeredSchemes[s].builder != registeredSchemes[t].builder
    }

    ghost function View(): Schemes
      reads this, Builders()
    {
      map s | s in registeredSchemes ::
        Entry(registeredSchemes[s].key, registeredSchemes[s].sd, registeredSchemes[s].builder.sd, registeredSchemes[s].refs)
    }

    /** One entry may have been rewritten, and what its own builder serves. */
    twostate predicate OnlyChanged(scheme: string)
      reads this
    {
      && scheme in old(registeredSchemes) && scheme in registeredSchemes
      && registeredSchemes == old(registeredSchemes)[scheme := registeredSchemes[scheme]]
      && registeredSchemes[scheme].builder == old(registeredSchemes[scheme].builder)
    }

    twostate lemma BuildersStay(scheme: string)
      requires OnlyChanged(scheme)
      ensures registeredSchemes.Keys == old(registeredSchemes.Keys)
      ensures forall s | s in registeredSchemes :: registeredSchemes[s].builder == old(registeredSchemes[s].builder)
      ensures Builders() == old(Builders())
      ensures old(Valid()) ==> Valid()
    {
      var before := old(registeredSchemes);
      assert forall s | s in before :: registeredSchemes[s].builder == before[s].builder;
    }

    twostate lemma OthersStay(scheme: string)
      requires old(Valid()) && OnlyChanged(scheme)
      requires forall b | b in old(Builders()) && b != registeredSchemes[scheme].builder :: b.sd == old(b.sd)
      ensures forall s | s in registeredSchemes && s != scheme ::
        registeredSchemes[s] == old(registeredSchemes)[s] && registeredSchemes[s].builder.sd == old(registeredSchemes[s].builder.sd)
    {
      assert forall s | s in registeredSchemes && s != scheme :: registeredSchemes[s].builder in old(Builders());
    }

    /** Rewriting one entry, and what its own builder serves, rewrites that entry of the view. */
    twostate lemma OneSchemeChanged(scheme: string)
      requires old(Valid()) && OnlyChanged(scheme)
      requires forall b | b in old(Builders()) && b != registeredSchemes[scheme].builder :: b.sd == old(b.sd)
      ensures Valid() && Builders() == old(Builders())
      ensures View() == old(View())[scheme :=
        Entry(registeredSchemes[scheme].key, registeredSchemes[scheme].sd, registeredSchemes[scheme].builder.sd,
              registeredSchemes[scheme].refs)]
    {
      BuildersStay(scheme);
      OthersStay(scheme);
    }

    constructor ()
      ensures Valid() && View() == map[]
    {
      registeredSchemes := map[];
    }

    method RegisterResolverAndGet(scheme: string, sd: Option<Discovery>, key: string) returns (answer: Answer)
      requires Valid()
      modifies this, Builders()
      ensures Valid() && fresh(Builders() - old(Builders()))
      ensures (View(), answer) == Register(old(View()), scheme, sd, key)
    {
      hide View, Valid;
      ViewAt(scheme);
      if scheme in registeredSchemes {
        var registered := registeredSchemes[scheme];
        if registered.refs > 0 && registered.key != key {
          return Conflict;
        }
        if registered.refs == 0 {
          registered := registered.(key := key, sd := sd);
          registered.builder.SetDiscovery(sd);
        }
        registered := registered.(refs := registered.refs + 1);
        registeredSchemes := registeredSchemes[scheme := registered];
        OneSchemeChanged(scheme);
        return Shared(registered.sd);
      }
      AddScheme(scheme, sd, key);
      return Shared(sd);
    }

    /** The first registration of a scheme makes its builder. */
    method AddScheme(scheme: string, sd: Option<Discovery>, key: string)
      requires Valid() && scheme !in registeredSchemes
      modifies this
      ensures Valid() && fresh(Builders() - old(Builders()))
      ensures View() == old(View())[scheme := Entry(key, sd, sd, 1)]
    {
      var builder := new ResolverBuilder(sd);
      registeredSchemes := registeredSchemes[scheme := Registered(key, sd, builder, 1)];
      SchemeAdded(scheme);
      AddedView(scheme);
    }

    twostate predicate OnlyAdded(scheme: string)
      reads this
    {
      && scheme !in old(registeredSchemes) && scheme in registeredSchemes
      && registeredSchemes == old(registeredSchemes)[scheme := registeredSchemes[scheme]]
    }

    twostate lemma SchemeAdded(scheme: string)
      requires old(Valid()) && OnlyAdded(scheme) && registeredSchemes[scheme].builder !in old(Builders())
      ensures Valid() && Builders() == old(Builders()) + {registeredSchemes[scheme].builder}
    {
      assert forall s | s in old(registeredSchemes) :: registeredSchemes[s] == old(registeredSchemes)[s];
      assert forall s | s in old(registeredSchemes) :: registeredSchemes[s].builder in old(Builders());
    }

    twostate lemma AddedView(scheme: string)
      requires OnlyAdded(scheme) && forall b | b in old(Builders()) :: b.sd == old(b.sd)
      ensures View() == old(View())[scheme :=
        Entry(registeredSchemes[scheme].key, registeredSchemes[scheme].sd, registeredSchemes[scheme].builder.sd,
              registeredSchemes[scheme].refs)]
    {
      assert forall s | s in old(registeredSchemes) :: registeredSchemes[s] == old(registeredSchemes)[s];
      assert forall s | s in old(registeredSchemes) :: registeredSchemes[s].builder in old(Builders());
    }

    lemma ViewAt(scheme: string)
      ensures scheme in View() <==> scheme in registeredSchemes
      ensures scheme in registeredSchemes ==>
        var r := registeredSchemes[scheme]; View()[scheme] == Entry(r.key, r.sd, r.builder.sd, r.refs)
    {
    }

    method ReleaseResolver(scheme: string, sd: Option<Discovery>, key: string, closeOk: bool) returns (failed: bool)
      requires Valid()
      modifies this, Builders()
      ensures Valid() && Builders() == old(Builders())
      ensures (View(), failed) == Release(old(View()), scheme, sd, key, closeOk)
    {
      hide View, Valid;
      ViewAt(scheme);
      if scheme !in registeredSchemes {
        return false;
      }
      var registered := registeredSchemes[scheme];
      if registered.sd != sd && registered.key != key {
        return false;
      }
      if registered.refs > 0 {
        registered := registered.(refs := registered.refs - 1);
      }
      if registered.refs == 0 && registered.sd.Some? {
        if !closeOk {
          return true;
        }
        registered := registered.(sd := None);
        registered.builder.SetDiscovery(None);
      }
      registeredSchemes := registeredSchemes[scheme := registered];
      OneSchemeChanged(scheme);
      return false;
    }
  }

  // ---------------------------------------------------------------- one entry

  /** No references means no discovery, and the builder serves what is recorded. */
  ghost predicate Sound(m: Schemes) {
    forall s | s in m :: (m[s].refs == 0 <==> m[s].sd.None?) && m[s].served == m[s].sd
  }

  lemma ReleaseKeepsSound(m: Schemes, scheme: string, sd: Option<Discovery>, key: string, closeOk: bool)
    requires Sound(m)
    ensures Sound(Release(m, scheme, sd, key, closeOk).0)
  {
  }

  /** Registration keeps the entries sound exactly when it does not install a nil discovery. */
  lemma {:induction false} RegisterKeepsSoundIff(m: Schemes, scheme: string, sd: Option<Discovery>, key: string)
    requires Sound(m)
    ensures Sound(Register(m, scheme, sd, key).0) <==> sd.Some? || (scheme in m && m[scheme].refs > 0)
  {
    if sd.None? && !(scheme in m && m[scheme].refs > 0) {
      var m' := Register(m, scheme, sd, key).0;
      assert scheme in m' && m'[scheme].refs == 1 && m'[scheme].sd.None?;
    }
  }

  /** While references remain, neither operation changes the key or the discovery of a scheme. */
  lemma EntryIsPinned(m: Schemes, scheme: string, sd: Option<Discovery>, key: string, closeOk: bool, s: string)
    requires Sound(m) && s in m && m[s].refs > 0
    ensures var a := Register(m, scheme, sd, key).0;
      s in a && a[s].key == m[s].key && a[s].sd == m[s].sd && a[s].refs >= m[s].refs
    ensures var r := Release(m, scheme, sd, key, closeOk).0;
      s in r && (r[s].refs > 0 ==> r[s].key == m[s].key && r[s].sd == m[s].sd && r[s].served == m[s].sd)
  {
  }

  /** A release whose Close fails leaves the whole registry as it was, and can be retried. */
  lemma FailedCloseChangesNothing(m: Schemes, scheme: string, sd: Option<Discovery>, key: string, closeOk: bool)
    requires Sound(m)
    ensures Release(m, scheme, sd, key, closeOk).1
       <==> Matches(m, scheme, sd, key) && m[scheme].refs == 1 && !closeOk
    ensures Release(m, scheme, sd, key, closeOk).1 ==> Release(m, scheme, sd, key, closeOk).0 == m
  {
  }

  // ---------------------------------------------------------------- holders

  /** A client keeps the scheme and the discovery it was given. */
  datatype Holder = Holder(scheme: string, sd: Discovery)

  datatype World = World(schemes: Schemes, held: map<nat, Holder>, closed: set<Discovery>)

  datatype Event =
    | Acquire(client: nat, scheme: string, sd: Discovery, key: string)
    | GiveBack(client: nat, key: string, closeOk: bool)

  /**
   Clients register any discovery under any scheme, closed ones and one object under several schemes
   included, and release what they were given. The key presented when releasing is arbitrary.
  */
  ghost predicate Enabled(w: World, e: Event) {
    match e
    case Acquire(client, _, _, _) => client !in w.held
    case GiveBack(client, _, _) => client in w.held
  }

  function Step(w: World, e: Event): World {
    match e
    case Acquire(client, scheme, sd, key) =>
      var r := Register(w.schemes, scheme, Some(sd), key);
      if r.1.Shared? && r.1.sd.Some? then World(r.0, w.held[client := Holder(scheme, r.1.sd.value)], w.closed)
      else w.(schemes := r.0)
    case GiveBack(client, key, closeOk) =>
      if client !in w.held then w
      else
        var h := w.held[client];
        var r := Release(w.schemes, h.scheme, Some(h.sd), key, closeOk);
        if r.1 then w.(schemes := r.0)
        else
          var closes := ClosesOn(w.schemes, h.scheme, Some(h.sd), key);
          World(r.0, w.held - {client}, if closes then w.closed + {w.schemes[h.scheme].sd.value} else w.closed)
  }

  function Run(es: seq<Event>): World {
    if |es| == 0 then World(map[], map[], {}) else Step(Run(es[..|es| - 1]), es[|es| - 1])
  }

  ghost predicate Legal(es: seq<Event>) {
    |es| > 0 ==> Legal(es[..|es| - 1]) && Enabled(Run(es[..|es| - 1]), es[|es| - 1])
  }

  ghost function HoldersOf(w: World, scheme: string): set<nat> {
    set c | c in w.held && w.held[c].scheme == scheme
  }

  ghost predicate SchemeInv(w: World, s: string)
    requires s in w.schemes
  {
    w.schemes[s].refs == |HoldersOf(w, s)|
  }

  ghost predicate HolderInv(w: World, c: nat)
    requires c in w.held
  {
    w.held[c].scheme in w.schemes && w.schemes[w.held[c].scheme].sd == Some(w.held[c].sd)
  }

  ghost predicate Inv(w: World) {
    && Sound(w.schemes)
    && (forall s | s in w.schemes :: SchemeInv(w, s))
    && (forall c | c in w.held :: HolderInv(w, c))
  }

  lemma NoHolderWithoutEntry(w: World, s: string)
    requires Inv(w) && (s !in w.schemes || w.schemes[s].refs == 0)
    ensures HoldersOf(w, s) == {}
  {
    forall c | c in w.held ensures w.held[c].scheme != s { assert HolderInv(w, c); }
  }

  lemma AcquireKeepsSchemes(w: World, e: Event, s: string)
    requires Inv(w) && e.Acquire? && Enabled(w, e) && !Conflicts(w.schemes, e.scheme, e.key)
    requires s in Step(w, e).schemes
    ensures SchemeInv(Step(w, e), s)
  {
    var w' := Step(w, e);
    if s in w.schemes { assert SchemeInv(w, s); }
    hide HoldersOf;
    if s == e.scheme && (s !in w.schemes || w.schemes[s].refs == 0) { NoHolderWithoutEntry(w, s); }
    HolderAdded(w, w', e.client, s);
  }

  lemma HolderAdded(w: World, w': World, c: nat, s: string)
    requires c !in w.held && c in w'.held && w'.held == w.held[c := w'.held[c]]
    ensures |HoldersOf(w', s)| == |HoldersOf(w, s)| + (if w'.held[c].scheme == s then 1 else 0)
  {
    if w'.held[c].scheme == s {
      assert HoldersOf(w', s) == HoldersOf(w, s) + {c} && c !in HoldersOf(w, s);
    } else {
      assert HoldersOf(w', s) == HoldersOf(w, s);
    }
  }

  lemma AcquireKeepsHolders(w: World, e: Event, c: nat)
    requires Inv(w) && e.Acquire? && Enabled(w, e) && !Conflicts(w.schemes, e.scheme, e.key)
    requires c in Step(w, e).held
    ensures HolderInv(Step(w, e), c)
  {
    if c != e.client { assert HolderInv(w, c); }
  }

  lemma AcquireKeepsInv(w: World, e: Event)
    requires Inv(w) && e.Acquire? && Enabled(w, e)
    ensures Inv(Step(w, e))
  {
    var w' := Step(w, e);
    RegisterKeepsSoundIff(w.schemes, e.scheme, Some(e.sd), e.key);
    if !Conflicts(w.schemes, e.scheme, e.key) {
      forall s | s in w'.schemes ensures SchemeInv(w', s) { AcquireKeepsSchemes(w, e, s); }
      forall c | c in w'.held ensures HolderInv(w', c) { AcquireKeepsHolders(w, e, c); }
    }
  }

  /** Held discoveries are recorded, so a holder's release always matches its entry. */
  lemma HolderMatches(w: World, c: nat, key: string)
    requires Inv(w) && c in w.held
    ensures Matches(w.schemes, w.held[c].scheme, Some(w.held[c].sd), key)
    ensures ClosesOn(w.schemes, w.held[c].scheme, Some(w.held[c].sd), key)
       <==> HoldersOf(w, w.held[c].scheme) == {c}
  {
    assert HolderInv(w, c) && SchemeInv(w, w.held[c].scheme);
    var hs := HoldersOf(w, w.held[c].scheme);
    assert c in hs;
    if |hs| == 1 {
      assert |hs - {c}| == 0;
      assert hs == {c};
    }
  }

  lemma GiveBackKeepsSchemes(w: World, e: Event, s: string)
    requires Inv(w) && e.GiveBack? && Enabled(w, e) && Step(w, e).held != w.held
    requires s in Step(w, e).schemes
    ensures SchemeInv(Step(w, e), s)
  {
    var w' := Step(w, e);
    var h := w.held[e.client];
    HolderMatches(w, e.client, e.key);
    assert HolderInv(w, e.client) && SchemeInv(w, s) && SchemeInv(w, h.scheme);
    if s == h.scheme {
      assert HoldersOf(w', s) == HoldersOf(w, s) - {e.client};
    } else {
      assert HoldersOf(w', s) == HoldersOf(w, s);
    }
  }

  lemma GiveBackKeepsHolders(w: World, e: Event, c: nat)
    requires Inv(w) && e.GiveBack? && Enabled(w, e) && c in Step(w, e).held && c != e.client
    ensures HolderInv(Step(w, e), c)
  {
    var h := w.held[e.client];
    HolderMatches(w, e.client, e.key);
    assert HolderInv(w, c) && SchemeInv(w, h.scheme);
    if w.held[c].scheme == h.scheme { assert c in HoldersOf(w, h.scheme); }
  }

  lemma GiveBackKeepsInv(w: World, e: Event)
    requires Inv(w) && e.GiveBack? && Enabled(w, e)
    ensures Inv(Step(w, e))
  {
    var w' := Step(w, e);
    var h := w.held[e.client];
    ReleaseKeepsSound(w.schemes, h.scheme, Some(h.sd), e.key, e.closeOk);
    HolderMatches(w, e.client, e.key);
    FailedCloseChangesNothing(w.schemes, h.scheme, Some(h.sd), e.key, e.closeOk);
    if Release(w.schemes, h.scheme, Some(h.sd), e.key, e.closeOk).1 {
      assert w' == w;
    } else {
      assert e.client !in w'.held && w'.held != w.held;
      forall s | s in w'.schemes ensures SchemeInv(w', s) { GiveBackKeepsSchemes(w, e, s); }
      forall c | c in w'.held ensures HolderInv(w', c) { GiveBackKeepsHolders(w, e, c); }
    }
  }

  lemma {:induction false} InvAlways(es: seq<Event>)
    requires Legal(es)
    ensures Inv(Run(es))
  {
    if |es| > 0 {
      var w, e := Run(es[..|es| - 1]), es[|es| - 1];
      InvAlways(es[..|es| - 1]);
      if e.Acquire? { AcquireKeepsInv(w, e); } else { GiveBackKeepsInv(w, e); }
    }
  }

  // ---------------------------------------------------------------- held and closed

  ghost predicate AllOpen(w: World) {
    forall c | c in w.held :: w.held[c].sd !in w.closed
  }

  predicate Elsewhere(w: World, scheme: string, sd: Discovery) {
    exists s :: s in w.schemes && s != scheme && w.schemes[s].sd == Some(sd)
  }

  /**
   A discovery that was closed before is installed; or the last holder under one scheme closes a
   discovery that is recorded under another scheme too.
  */
  ghost predicate Harms(w: World, e: Event) {
    match e
    case Acquire(_, scheme, sd, _) => Refs(w.schemes, scheme) == 0 && sd in w.closed
    case GiveBack(client, _, closeOk) =>
      && client in w.held && closeOk && HoldersOf(w, w.held[client].scheme) == {client}
      && Elsewhere(w, w.held[client].scheme, w.held[client].sd)
  }

  lemma AcquireOpenIff(w: World, e: Event)
    requires Inv(w) && Enabled(w, e) && AllOpen(w) && e.Acquire?
    ensures AllOpen(Step(w, e)) <==> !Harms(w, e)
  {
    var w' := Step(w, e);
    assert w'.closed == w.closed;
    if Refs(w.schemes, e.scheme) > 0 {
      assert SchemeInv(w, e.scheme);
      var c :| c in HoldersOf(w, e.scheme);
      assert HolderInv(w, c);
    } else if e.sd in w.closed {
      assert e.client in w'.held && w'.held[e.client].sd == e.sd;
    }
  }

  lemma GiveBackOpenIff(w: World, e: Event)
    requires Inv(w) && Enabled(w, e) && AllOpen(w) && e.GiveBack?
    ensures AllOpen(Step(w, e)) <==> !Harms(w, e)
  {
    hide Release, ClosesOn, Matches;
    var w', h := Step(w, e), w.held[e.client];
    GiveBackCloses(w, e);
    if HoldersOf(w, h.scheme) == {e.client} && e.closeOk {
      assert w'.held == w.held - {e.client};
      if Elsewhere(w, h.scheme, h.sd) {
        var s :| s in w.schemes && s != h.scheme && w.schemes[s].sd == Some(h.sd);
        assert SchemeInv(w, s) && HoldersOf(w, s) != {};
        var c :| c in HoldersOf(w, s);
        assert HolderInv(w, c) && c in w'.held && w'.held[c].sd == h.sd;
      } else {
        forall c | c in w'.held ensures w'.held[c].sd !in w'.closed {
          assert HolderInv(w, c);
          assert w.held[c].scheme == h.scheme ==> c in HoldersOf(w, h.scheme);
        }
      }
    }
  }

  /** What a release by a holder does to the discoveries that are closed, and to the holders. */
  lemma GiveBackCloses(w: World, e: Event)
    requires Inv(w) && Enabled(w, e) && e.GiveBack?
    ensures var h, w' := w.held[e.client], Step(w, e);
      if HoldersOf(w, h.scheme) != {e.client} then w'.closed == w.closed && w'.held == w.held - {e.client}
      else if e.closeOk then w'.closed == w.closed + {h.sd} && w'.held == w.held - {e.client}
      else w' == w
  {
    HolderMatches(w, e.client, e.key);
    assert HolderInv(w, e.client) && SchemeInv(w, w.held[e.client].scheme);
    FailedCloseChangesNothing(w.schemes, w.held[e.client].scheme, Some(w.held[e.client].sd), e.key, e.closeOk);
  }

  lemma {:induction false} LegalPrefix(es: seq<Event>, i: nat)
    requires Legal(es) && i <= |es|
    ensures Legal(es[..i])
  {
    if i < |es| {
      LegalPrefix(es[..|es| - 1], i);
      assert es[..|es| - 1][..i] == es[..i];
    } else {
      assert es[..i] == es;
    }
  }

  lemma OneMoreEvent(es: seq<Event>, i: nat)
    requires Legal(es) && i < |es| && AllOpen(Run(es[..i]))
    ensures AllOpen(Run(es[..i + 1])) <==> !Harms(Run(es[..i]), es[i])
  {
    hide Step, Enabled, Inv, AllOpen, Harms;
    LegalPrefix(es, i);
    LegalPrefix(es, i + 1);
    InvAlways(es[..i]);
    assert es[..i + 1][..i] == es[..i];
    if es[i].Acquire? { AcquireOpenIff(Run(es[..i]), es[i]); } else { GiveBackOpenIff(Run(es[..i]), es[i]); }
  }

  lemma {:induction false} OpenUpTo(es: seq<Event>, i: nat)
    requires Legal(es) && i <= |es|
    requires forall j | 0 <= j < i :: !Harms(Run(es[..j]), es[j])
    ensures AllOpen(Run(es[..i]))
  {
    if i > 0 {
      hide Run, Legal, Harms, AllOpen;
      OpenUpTo(es, i - 1);
      OneMoreEvent(es, i - 1);
    }
  }

  /**
   Over every run of holders: at every moment no held discovery is closed, if and only if no closed
   discovery was ever installed and none was closed by the last holder of one scheme while another
   scheme had it recorded.
  */
  lemma {:induction false} HeldStayOpenIff(es: seq<Event>)
    requires Legal(es)
    ensures (forall i | 0 <= i <= |es| :: AllOpen(Run(es[..i]))) <==> (forall i | 0 <= i < |es| :: !Harms(Run(es[..i]), es[i]))
  {
    hide Run, Legal, Harms, AllOpen;
    if forall i | 0 <= i < |es| :: !Harms(Run(es[..i]), es[i]) {
      forall i | 0 <= i <= |es| ensures AllOpen(Run(es[..i])) { OpenUpTo(es, i); }
    } else {
      var i: nat :| i < |es| && Harms(Run(es[..i]), es[i]);
      if AllOpen(Run(es[..i])) { OneMoreEvent(es, i); }
    }
  }

  lemma RunAppend(es: seq<Event>, e: Event)
    requires Legal(es) && Enabled(Run(es), e)
    ensures Legal(es + [e]) && Run(es + [e]) == Step(Run(es), e)
  {
    assert (es + [e])[..|es|] == es;
  }

  /** One object under two schemes: the only holder of the first closes it under the holder of the second. */
  lemma ClosedUnderAHolder(a: string, b: string, sd: Discovery, key: string)
    requires a != b
    ensures var es := [Acquire(0, a, sd, key), Acquire(1, b, sd, key), GiveBack(0, key, true)];
      Legal(es) && 1 in Run(es).held && Run(es).held[1] == Holder(b, sd) && sd in Run(es).closed
  {
    var e0, e1, e2 := Acquire(0, a, sd, key), Acquire(1, b, sd, key), GiveBack(0, key, true);
    TwoSchemes(a, b, sd, key);
    hide Step, Legal, Run, Enabled;
    RunAppend([], e0);
    RunAppend([] + [e0], e1);
    RunAppend([] + [e0] + [e1], e2);
    assert [] + [e0] + [e1] + [e2] == [e0, e1, e2];
  }

  lemma TwoSchemes(a: string, b: string, sd: Discovery, key: string)
    requires a != b
    ensures var w1 := Step(Run([]), Acquire(0, a, sd, key));
      var w2 := Step(w1, Acquire(1, b, sd, key));
      var w3 := Step(w2, GiveBack(0, key, true));
      && Legal([]) && Enabled(Run([]), Acquire(0, a, sd, key)) && Enabled(w1, Acquire(1, b, sd, key))
      && Enabled(w2, GiveBack(0, key, true))
      && 1 in w3.held && w3.held[1] == Holder(b, sd) && sd in w3.closed
  {
    var w1 := Step(Run([]), Acquire(0, a, sd, key));
    assert w1 == World(map[a := Entry(key, Some(sd), Some(sd), 1)], map[0 := Holder(a, sd)], {});
    var w2 := Step(w1, Acquire(1, b, sd, key));
    assert w2.held[0] == Holder(a, sd) && w2.schemes[a].refs == 1;
  }

  /**
   In every run, a scheme's reference count is the number of its holders, and what a holder was
   given is still recorded and still served to gRPC; and it is not closed, unless by such an event.
  */
  lemma {:induction false} HeldDiscoveriesAreServed(es: seq<Event>, c: nat)
    requires Legal(es) && c in Run(es).held
    ensures var w, h := Run(es), Run(es).held[c];
      && h.scheme in w.schemes
      && w.schemes[h.scheme].served == Some(h.sd)
      && w.schemes[h.scheme].refs == |HoldersOf(w, h.scheme)| > 0
      && (h.sd in w.closed ==> exists i | 0 <= i < |es| :: Harms(Run(es[..i]), es[i]))
  {
    InvAlways(es);
    assert HolderInv(Run(es), c) && SchemeInv(Run(es), Run(es).held[c].scheme);
    if forall i | 0 <= i < |es| :: !Harms(Run(es[..i]), es[i]) {
      OpenUpTo(es, |es|);
      assert es[..|es|] == es;
    }
  }

  /** A discovery is closed exactly by the last holder's release, when its Close succeeds. */
  lemma {:induction false} ClosedExactlyOnLastRelease(es: seq<Event>, e: Event)
    requires Legal(es) && Enabled(Run(es), e)
    ensures var w := Run(es);
      var last := e.GiveBack? && HoldersOf(w, w.held[e.client].scheme) == {e.client};
      && Step(w, e).closed == (if last && e.closeOk then w.closed + {w.held[e.client].sd} else w.closed)
      && (last && !e.closeOk ==> Step(w, e) == w)
  {
    InvAlways(es);
    if e.GiveBack? { GiveBackCloses(Run(es), e); }
  }

  // ---------------------------------------------------------------- any caller, any argument

  /** The two functions are open to the whole process: any discovery or none, any key, in any order. */
  datatype Call =
    | RegisterCall(scheme: string, sd: Option<Discovery>, key: string)
    | ReleaseCall(scheme: string, sd: Option<Discovery>, key: string, closeOk: bool)

  function AfterCall(m: Schemes, c: Call): Schemes {
    match c
    case RegisterCall(scheme, sd, key) => Register(m, scheme, sd, key).0
    case ReleaseCall(scheme, sd, key, closeOk) => Release(m, scheme, sd, key, closeOk).0
  }

  function AfterCalls(cs: seq<Call>): Schemes {
    if |cs| == 0 then map[] else AfterCall(AfterCalls(cs[..|cs| - 1]), cs[|cs| - 1])
  }

  function Refs(m: Schemes, s: string): nat {
    if s in m then m[s].refs else 0
  }

  /** A registration that was not refused. */
  predicate Acquires(m: Schemes, c: Call, s: string) {
    c.RegisterCall? && c.scheme == s && !Conflicts(m, s, c.key)
  }

  /** A release that names what is recorded, while references remain, and reports no error. */
  predicate GivesUp(m: Schemes, c: Call, s: string) {
    c.ReleaseCall? && c.scheme == s && Matches(m, s, c.sd, c.key) && m[s].refs > 0
    && !Release(m, s, c.sd, c.key, c.closeOk).1
  }

  function Acquisitions(cs: seq<Call>, s: string): nat {
    if |cs| == 0 then 0
    else Acquisitions(cs[..|cs| - 1], s) + (if Acquires(AfterCalls(cs[..|cs| - 1]), cs[|cs| - 1], s) then 1 else 0)
  }

  function Releases(cs: seq<Call>, s: string): nat {
    if |cs| == 0 then 0
    else Releases(cs[..|cs| - 1], s) + (if GivesUp(AfterCalls(cs[..|cs| - 1]), cs[|cs| - 1], s) then 1 else 0)
  }

  /**
   Over any sequence of calls, the references of a scheme are its acquisitions minus its effective
   releases; the builder serves what is recorded, and nothing is recorded without references.
  */
  lemma {:induction false} RefsAreTheBalance(cs: seq<Call>, s: string)
    ensures Refs(AfterCalls(cs), s) == Acquisitions(cs, s) - Releases(cs, s)
    ensures var m := AfterCalls(cs);
      s in m ==> m[s].served == m[s].sd && (m[s].refs == 0 ==> m[s].sd.None?)
  {
    if |cs| > 0 { RefsAreTheBalance(cs[..|cs| - 1], s); }
  }

  /** A discovery is closed by a call exactly when that call takes its scheme's balance from 1 to 0. */
  lemma {:induction false} ClosedExactlyAtZero(cs: seq<Call>, c: Call)
    requires c.ReleaseCall?
    ensures var m := AfterCalls(cs);
      ClosesOn(m, c.scheme, c.sd, c.key) && c.closeOk <==>
        c.scheme in m && m[c.scheme].sd.Some?
        && Acquisitions(cs, c.scheme) - Releases(cs, c.scheme) == 1
        && Acquisitions(cs + [c], c.scheme) - Releases(cs + [c], c.scheme) == 0
  {
    RefsAreTheBalance(cs, c.scheme);
    RefsAreTheBalance(cs + [c], c.scheme);
    assert (cs + [c])[..|cs|] == cs;
  }

  /**
   The registration that a scheme's references go back to: the last one taken while it had none. It
   is found from the calls and their answers alone.
  */
  function FoundingCall(cs: seq<Call>, s: string): Option<Call> {
    if |cs| == 0 then None
    else
      var before, c := cs[..|cs| - 1], cs[|cs| - 1];
      if c.RegisterCall? && c.scheme == s && Acquisitions(before, s) - Releases(before, s) == 0 then Some(c)
      else FoundingCall(before, s)
  }

  lemma {:induction false} RecordedIsFounding(cs: seq<Call>, s: string)
    requires Refs(AfterCalls(cs), s) > 0
    ensures var f := FoundingCall(cs, s);
      f.Some? && f.value.RegisterCall? && AfterCalls(cs)[s].key == f.value.key && AfterCalls(cs)[s].sd == f.value.sd
  {
    var before, c := cs[..|cs| - 1], cs[|cs| - 1];
    var m := AfterCalls(before);
    RefsAreTheBalance(before, s);
    if Refs(m, s) > 0 { RecordedIsFounding(before, s); }
    OneCall(m, c, s);
  }

  /** One call moves no entry but its own, and that only once its references are gone. */
  lemma OneCall(m: Schemes, c: Call, s: string)
    ensures var m' := AfterCall(m, c);
      && (c.scheme != s || c.ReleaseCall? || Refs(m, s) > 0 ==>
            (Refs(m', s) > 0 ==> Refs(m, s) > 0 && m'[s].key == m[s].key && m'[s].sd == m[s].sd))
      && (c.scheme == s && c.RegisterCall? && Refs(m, s) == 0 ==>
            s in m' && Refs(m', s) == 1 && m'[s].key == c.key && m'[s].sd == c.sd)
  {
  }

  /**
   Over any sequence of calls: a registration is refused exactly when references remain and the key
   is not that of the registration they go back to, and a refusal changes nothing. Otherwise it is
   answered with the discovery of that registration, or with its own where no references remain.
  */
  lemma {:induction false} SharedOrRefusedIff(cs: seq<Call>, s: string, sd: Option<Discovery>, key: string)
    ensures var m, f := AfterCalls(cs), FoundingCall(cs, s);
      var r := Register(m, s, sd, key);
      if Acquisitions(cs, s) - Releases(cs, s) == 0 then
        r.1 == Shared(sd)
      else
        && f.Some? && f.value.RegisterCall?
        && r.1 == (if key == f.value.key then Shared(f.value.sd) else Conflict)
        && (key != f.value.key ==> r.0 == m)
  {
    RefsAreTheBalance(cs, s);
    if Refs(AfterCalls(cs), s) > 0 { RecordedIsFounding(cs, s); }
  }

  lemma CallKeepsSoundIff(m: Schemes, c: Call)
    requires Sound(m)
    ensures Sound(AfterCall(m, c)) <==> (c.RegisterCall? && c.sd.None? ==> Refs(m, c.scheme) > 0)
  {
    hide Sound, Register, Release;
    match c
    case RegisterCall(scheme, sd, key) => RegisterKeepsSoundIff(m, scheme, sd, key);
    case ReleaseCall(scheme, sd, key, closeOk) => ReleaseKeepsSound(m, scheme, sd, key, closeOk);
  }

  /** Call number i registers nil for a scheme without references. */
  ghost predicate NilAt(cs: seq<Call>, i: nat) {
    i < |cs| && cs[i].RegisterCall? && cs[i].sd.None? && Refs(AfterCalls(cs[..i]), cs[i].scheme) == 0
  }

  lemma OneMoreCall(cs: seq<Call>, i: nat)
    requires i < |cs| && Sound(AfterCalls(cs[..i]))
    ensures Sound(AfterCalls(cs[..i + 1])) <==> !NilAt(cs, i)
  {
    hide Sound, AfterCall, Refs;
    assert cs[..i + 1][..i] == cs[..i];
    CallKeepsSoundIff(AfterCalls(cs[..i]), cs[i]);
  }

  lemma {:induction false} SoundUpTo(cs: seq<Call>, i: nat)
    requires i <= |cs| && forall j | 0 <= j < |cs| :: !NilAt(cs, j)
    ensures Sound(AfterCalls(cs[..i]))
  {
    if i > 0 {
      SoundUpTo(cs, i - 1);
      OneMoreCall(cs, i - 1);
    }
  }

  /**
   References without a discovery never arise if and only if nil is never registered for a scheme
   that has no references at that moment.
  */
  lemma {:induction false} SoundThroughoutIff(cs: seq<Call>)
    ensures (forall i | 0 <= i <= |cs| :: Sound(AfterCalls(cs[..i]))) <==> (forall i | 0 <= i < |cs| :: !NilAt(cs, i))
  {
    hide Sound, NilAt, AfterCalls;
    if forall i | 0 <= i < |cs| :: !NilAt(cs, i) {
      forall i | 0 <= i <= |cs| ensures Sound(AfterCalls(cs[..i])) { SoundUpTo(cs, i); }
    } else {
      var i: nat :| i < |cs| && NilAt(cs, i);
      if Sound(AfterCalls(cs[..i])) { OneMoreCall(cs, i); }
    }
  }

  /**
   A release by someone who holds nothing takes a holder's reference exactly when the scheme has
   holders, the release names the recorded discovery or presents its key, and, at the last
   reference, Close succeeds; the last holder's discovery is then closed under it.
  */
  lemma {:induction false} StrayReleaseDropsIff(es: seq<Event>, scheme: string, sd: Option<Discovery>, key: string, closeOk: bool)
    requires Legal(es)
    ensures var w := Run(es);
      var m := Release(w.schemes, scheme, sd, key, closeOk).0;
      && (Refs(m, scheme) < |HoldersOf(w, scheme)| <==>
            HoldersOf(w, scheme) != {} && scheme in w.schemes
            && (w.schemes[scheme].sd == sd || w.schemes[scheme].key == key)
            && (|HoldersOf(w, scheme)| > 1 || closeOk))
      && (Refs(m, scheme) == 0 && HoldersOf(w, scheme) != {} ==> scheme in m && m[scheme].served.None?)
  {
    var w := Run(es);
    InvAlways(es);
    if scheme in w.schemes {
      assert SchemeInv(w, scheme);
    } else {
      NoHolderWithoutEntry(w, scheme);
    }
    assert |HoldersOf(w, scheme)| == 0 <==> HoldersOf(w, scheme) == {};
  }
}
