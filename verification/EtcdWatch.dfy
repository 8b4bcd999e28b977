/**
 Service discovery of grpc/etcd.go: an instance list is read from a snapshot, changes are watched
 from the next revision on, each response makes the list be read again, and a broken watch is
 restarted from a new snapshot.
*/
module EtcdWatch {
  import opened Common
  import opened EtcdKeys

  // ---------------------------------------------------------------- addresses of a key list

  /** Base names in order of first occurrence. */
  function Addresses(keys: seq<string>): seq<string> {
    if |keys| == 0 then []
    else
      var front, last := Addresses(keys[..|keys| - 1]), Base(keys[|keys| - 1]);
      if last in front then front else front + [last]
  }

  lemma {:induction false} AddressesAreBaseNames(keys: seq<string>)
    ensures forall a :: a in Addresses(keys) <==> exists i :: 0 <= i < |keys| && Base(keys[i]) == a
  {
    if |keys| > 0 {
      var n := |keys| - 1;
      AddressesAreBaseNames(keys[..n]);
      assert forall i | 0 <= i < n :: keys[..n][i] == keys[i];
      assert Base(keys[n]) in Addresses(keys);
    }
  }

  predicate Distinct(s: seq<string>) {
    forall i, j | 0 <= i < j < |s| :: s[i] != s[j]
  }

  /** Where an address is first seen. */
  ghost predicate FirstAt(keys: seq<string>, a: string, i: nat) {
    i < |keys| && Base(keys[i]) == a && forall j | 0 <= j < i :: Base(keys[j]) != a
  }

  lemma {:induction false} AddressesInOrder(keys: seq<string>)
    ensures Distinct(Addresses(keys))
    ensures forall x, y, i, j | 0 <= x < y < |Addresses(keys)| &&
      FirstAt(keys, Addresses(keys)[x], i) && FirstAt(keys, Addresses(keys)[y], j) :: i < j
  {
    AddressesAreBaseNames(keys);
    if |keys| > 0 {
      var n := |keys| - 1;
      AddressesAreBaseNames(keys[..n]);
      var front, r := Addresses(keys[..n]), Addresses(keys);
      AddressesInOrder(keys[..n]);
      forall x, y, i: nat, j: nat | 0 <= x < y < |r| && FirstAt(keys, r[x], i) && FirstAt(keys, r[y], j)
        ensures i < j
      {
        SeenEarlier(keys, r[x], i);
        if y < |front| {
          SeenEarlier(keys, r[y], j);
        }
      }
    }
  }

  /** An address among the earlier keys is first seen there. */
  lemma SeenEarlier(keys: seq<string>, a: string, i: nat)
    requires |keys| > 0 && FirstAt(keys, a, i) && a in Addresses(keys[..|keys| - 1])
    ensures i < |keys| - 1 && FirstAt(keys[..|keys| - 1], a, i)
  {
    AddressesAreBaseNames(keys[..|keys| - 1]);
  }

  method ServiceAddresses(keys: seq<string>) returns (addresses: seq<string>)
    ensures addresses == Addresses(keys)
    ensures addresses == [] <==> keys == []
  {
    addresses := [];
    var seen: set<string> := {};
    for k := 0 to |keys|
      invariant addresses == Addresses(keys[..k])
      invariant seen == set a | a in addresses
    {
      var address := Base(keys[k]);
      assert keys[..k + 1][..k] == keys[..k];
      if address !in seen {
        seen := seen + {address};
        addresses := addresses + [address];
      }
    }
    assert keys[..|keys|] == keys;
    AddressesAreBaseNames(keys);
    if |keys| > 0 { assert Base(keys[0]) in addresses; }
  }

  // ---------------------------------------------------------------- the store

  /** One revision: the keys below the service prefix, and whether it wrote below that prefix. */
  datatype Revision = Revision(keys: seq<string>, touched: bool)

  /** history[r] is revision r; revision 0 is the store before any write. */
  ghost predicate IsHistory(history: seq<Revision>) {
    && |history| > 0
    && (forall r | 0 < r < |history| :: !history[r].touched ==> history[r].keys == history[r - 1].keys)
  }

  function Current(history: seq<Revision>): nat
    requires |history| > 0
  {
    |history| - 1
  }

  lemma {:induction false} UntouchedKeepsKeys(history: seq<Revision>, a: nat, b: nat)
    requires IsHistory(history) && a <= b < |history|
    requires forall r | a < r <= b :: !history[r].touched
    ensures history[a].keys == history[b].keys
  {
    if a < b { UntouchedKeepsKeys(history, a, b - 1); }
  }

  // ---------------------------------------------------------------- the watcher

  /** The revision from which a watch asks for events; none means from the moment it is opened. */
  function WatchFrom(revision: nat): Option<nat> {
    if revision > 0 then Some(revision + 1) else None
  }

  function FirstWatched(revision: nat, current: nat): nat {
    match WatchFrom(revision)
    case Some(r) => r
    case None => current + 1
  }

  datatype Phase =
    | Starting                    // about to read a snapshot
    | Snapshotted(revision: nat)  // snapshot reported, watch not yet open
    | Listening(cursor: nat)      // every revision below cursor has been received
    | Rereading(cursor: nat)      // a response was received, the list not yet read again
    | Broken                      // waiting to be restarted
    | Stopped

  /**
   wait tells a watch that keeps trying (the gRPC resolver's, and every restarted one) from a first
   call of Watch, which fails at once. reported lists the callback's arguments, readAt the revision
   each was read at.
  */
  datatype Watcher = Watcher(wait: bool, phase: Phase, reported: seq<seq<string>>, readAt: seq<nat>)

  function Report(w: Watcher, history: seq<Revision>): Watcher
    requires |history| > 0
  {
    w.(reported := w.reported + [Addresses(history[Current(history)].keys)], readAt := w.readAt + [Current(history)])
  }

  datatype World = World(history: seq<Revision>, watcher: Watcher)

  datatype Step =
    | Write(keys: seq<string>, touched: bool)
    | Snapshot(ok: bool)
    | Open
    | Receive(upto: nat)   // a response covering the revisions up to that one
    | Reread(ok: bool)
    | Break                // channel closed, or watch cancelled by the server
    | Restart
    | Cancel               // caller's context done, or resolver closed

  predicate Enabled(w: World, e: Step) {
    && |w.history| > 0
    && var phase := w.watcher.phase;
       match e
       case Write(keys, touched) => touched || keys == w.history[Current(w.history)].keys
       case Snapshot(_) => phase.Starting?
       case Open => phase.Snapshotted?
       case Receive(upto) => phase.Listening? && phase.cursor <= upto + 1 && upto <= Current(w.history)
       case Reread(_) => phase.Rereading?
       case Break => phase.Listening?
       case Restart => phase.Broken?
       case Cancel => !phase.Stopped?
  }

  function AfterSnapshot(w: Watcher, history: seq<Revision>, ok: bool): Watcher
    requires |history| > 0
  {
    var empty := Addresses(history[Current(history)].keys) == [];
    if !ok || (empty && !w.wait) then w.(phase := if w.wait then Broken else Stopped)
    else Report(w, history).(phase := Snapshotted(Current(history)))
  }

  function AfterReread(w: Watcher, history: seq<Revision>, ok: bool): Watcher
    requires |history| > 0 && w.phase.Rereading?
  {
    if ok then Report(w, history).(phase := Listening(w.phase.cursor)) else w.(phase := Broken)
  }

  function Next(w: World, e: Step): World
    requires Enabled(w, e)
  {
    var me := w.watcher;
    match e
    case Write(keys, touched) => w.(history := w.history + [Revision(keys, touched)])
    case Snapshot(ok) => w.(watcher := AfterSnapshot(me, w.history, ok))
    case Open => w.(watcher := me.(phase := Listening(FirstWatched(me.phase.revision, Current(w.history)))))
    case Receive(upto) => w.(watcher := me.(phase := Rereading(upto + 1)))
    case Reread(ok) => w.(watcher := AfterReread(me, w.history, ok))
    case Break => w.(watcher := me.(phase := Broken))
    case Restart => w.(watcher := me.(phase := Starting, wait := true))
    case Cancel => w.(watcher := me.(phase := Stopped))
  }

  ghost predicate Legal(w: World, es: seq<Step>) {
    |es| > 0 ==> Legal(w, es[..|es| - 1]) && Enabled(Run(w, es[..|es| - 1]), es[|es| - 1])
  }

  ghost function Run(w: World, es: seq<Step>): World {
    if |es| == 0 then w
    else
      var v, e := Run(w, es[..|es| - 1]), es[|es| - 1];
      if Enabled(v, e) then Next(v, e) else v
  }

  /** A first watch, waiting or not, on any store. */
  ghost predicate Fresh(w: World) {
    IsHistory(w.history) && w.watcher == Watcher(w.watcher.wait, Starting, [], [])
  }

  /** The same on a store that has been written to, as etcd's revisions start at 1. */
  ghost predicate Begins(w: World) {
    Fresh(w) && |w.history| > 1
  }

  // ---------------------------------------------------------------- invariant

  /** Each report is the list of some revision, and reports never go back in time. */
  ghost predicate ReportsFollowStore(w: World) {
    && |w.watcher.reported| == |w.watcher.readAt|
    && (forall i | 0 <= i < |w.watcher.readAt| ::
          w.watcher.readAt[i] < |w.history| && w.watcher.reported[i] == Addresses(w.history[w.watcher.readAt[i]].keys))
    && (forall i, j | 0 <= i < j < |w.watcher.readAt| :: w.watcher.readAt[i] <= w.watcher.readAt[j])
  }

  ghost predicate Inv(w: World) {
    && IsHistory(w.history) && |w.history| > 1
    && ReportsFollowStore(w)
    && var readAt := w.watcher.readAt;
       match w.watcher.phase
       case Snapshotted(revision) => |readAt| > 0 && 0 < revision == readAt[|readAt| - 1]
       case Listening(cursor) => |readAt| > 0 && cursor <= readAt[|readAt| - 1] + 1
       case Rereading(cursor) => cursor <= |w.history|
       case _ => true
  }

  lemma ReportKeeps(w: World)
    requires Inv(w)
    ensures ReportsFollowStore(w.(watcher := Report(w.watcher, w.history)))
  {
  }

  lemma Keeps(w: World, e: Step)
    requires Inv(w) && Enabled(w, e)
    ensures Inv(Next(w, e))
  {
    ReportKeeps(w);
    if e.Write? {
      assert IsHistory(Next(w, e).history);
    }
  }

  lemma {:induction false} InvAlways(w: World, es: seq<Step>)
    requires Inv(w) && Legal(w, es)
    ensures Inv(Run(w, es))
  {
    if |es| > 0 {
      InvAlways(w, es[..|es| - 1]);
      Keeps(Run(w, es[..|es| - 1]), es[|es| - 1]);
    }
  }

  // ---------------------------------------------------------------- main theorems

  ghost predicate NothingPending(w: World)
    requires w.watcher.phase.Listening?
  {
    forall r | w.watcher.phase.cursor <= r < |w.history| :: !w.history[r].touched
  }

  /**
   Whenever the watch is listening and no change beyond its cursor waits to be delivered, the
   list last reported is the store's: over every run, across any number of broken watches.
  */
  lemma {:induction false} NoLostUpdate(w: World, es: seq<Step>)
    requires Begins(w) && Legal(w, es) && Run(w, es).watcher.phase.Listening? && NothingPending(Run(w, es))
    ensures var v := Run(w, es);
      && |v.watcher.reported| > 0
      && v.watcher.reported[|v.watcher.reported| - 1] == Addresses(v.history[Current(v.history)].keys)
  {
    InvAlways(w, es);
    QuietIsUpToDate(Run(w, es));
  }

  /** The reports are lists the store held, in the order it held them. */
  lemma {:induction false} ReportsNeverGoBack(w: World, es: seq<Step>)
    requires Begins(w) && Legal(w, es)
    ensures ReportsFollowStore(Run(w, es))
  {
    InvAlways(w, es);
  }

  /**
   Left alone, a watch that waits, or has reported anything, never ends; one that does not wait can
   end only with its first snapshot, before any report.
  */
  lemma {:induction false} WatchOutlivesFailures(w: World, es: seq<Step>)
    requires Fresh(w) && Legal(w, es) && Run(w, es).watcher.phase.Stopped?
    requires forall i | 0 <= i < |es| :: !es[i].Cancel?
    ensures !w.watcher.wait && Run(w, es).watcher.reported == []
  {
    Unfailing(w, es);
  }

  lemma {:induction false} Unfailing(w: World, es: seq<Step>)
    requires Fresh(w) && Legal(w, es) && forall i | 0 <= i < |es| :: !es[i].Cancel?
    ensures var v := Run(w, es).watcher;
      && (w.watcher.wait ==> v.wait)
      && (v.wait ==> !v.phase.Stopped?)
      && (!v.wait && (v.phase.Starting? || v.phase.Stopped?) ==> v.reported == [])
  {
    if |es| > 0 { Unfailing(w, es[..|es| - 1]); }
  }

  function KeysNow(w: World): seq<string> {
    if |w.history| == 0 then [] else w.history[|w.history| - 1].keys
  }

  /** The first snapshot of a run failed, or found no instance. */
  ghost predicate FirstSnapshotFails(w: World, es: seq<Step>) {
    exists i :: 0 <= i < |es| && FirstSnapshotAt(es, i) && (!es[i].ok || KeysNow(Run(w, es[..i])) == [])
  }

  ghost predicate FirstSnapshotAt(es: seq<Step>, i: nat)
    requires i < |es|
  {
    es[i].Snapshot? && forall j | 0 <= j < i :: !es[j].Snapshot?
  }

  ghost predicate NoSnapshot(es: seq<Step>) {
    forall i | 0 <= i < |es| :: !es[i].Snapshot?
  }

  lemma NoAddressesIffNoKeys(keys: seq<string>)
    ensures Addresses(keys) == [] <==> keys == []
  {
    if keys != [] { assert Base(keys[|keys| - 1]) in Addresses(keys); }
  }

  /** Left alone, a first watch that does not wait ends exactly when its first snapshot fails or is empty. */
  lemma {:induction false} WatchEndsIff(w: World, es: seq<Step>)
    requires Fresh(w) && Legal(w, es) && forall i | 0 <= i < |es| :: !es[i].Cancel?
    ensures Run(w, es).watcher.phase.Stopped? <==> !w.watcher.wait && FirstSnapshotFails(w, es)
  {
    hide Run;
    FirstSnapshotDecides(w, es);
  }

  /** Where a watch stands before its first snapshot, or after one that failed or not. */
  ghost predicate Decided(w: Watcher, wait: bool, asked: bool, failed: bool) {
    if !asked then w.phase.Starting? && w.wait == wait
    else if !wait && failed then w.phase.Stopped?
    else !w.phase.Stopped? && (w.phase.Starting? ==> w.wait)
  }

  lemma DecidedStep(w: World, e: Step, wait: bool, asked: bool, failed: bool)
    requires Enabled(w, e) && !e.Cancel? && Decided(w.watcher, wait, asked, failed)
    ensures Decided(Next(w, e).watcher, wait, asked || e.Snapshot?,
      if asked then failed else e.Snapshot? && (!e.ok || KeysNow(w) == []))
  {
    NoAddressesIffNoKeys(KeysNow(w));
  }

  lemma {:induction false} FirstSnapshotDecides(w: World, es: seq<Step>)
    requires Fresh(w) && Legal(w, es) && forall i | 0 <= i < |es| :: !es[i].Cancel?
    ensures Decided(Run(w, es).watcher, w.watcher.wait, !NoSnapshot(es), FirstSnapshotFails(w, es))
  {
    if |es| > 0 {
      hide Next, Enabled, Decided, FirstSnapshotFails, NoSnapshot;
      var n := |es| - 1;
      FirstSnapshotDecides(w, es[..n]);
      FirstSnapshotPrefix(w, es);
      DecidedStep(Run(w, es[..n]), es[n], w.watcher.wait, !NoSnapshot(es[..n]), FirstSnapshotFails(w, es[..n]));
    }
  }

  lemma FirstSnapshotPrefix(w: World, es: seq<Step>)
    requires |es| > 0
    ensures var n := |es| - 1;
      && (NoSnapshot(es) <==> NoSnapshot(es[..n]) && !es[n].Snapshot?)
      && (FirstSnapshotFails(w, es) <==>
            if NoSnapshot(es[..n]) then es[n].Snapshot? && (!es[n].ok || KeysNow(Run(w, es[..n])) == [])
            else FirstSnapshotFails(w, es[..n]))
  {
    hide Run, KeysNow;
    var n := |es| - 1;
    assert forall i | 0 <= i < n :: es[..n][i] == es[i] && es[..n][..i] == es[..i];
    if FirstSnapshotFails(w, es) {
      var i :| 0 <= i < |es| && FirstSnapshotAt(es, i) && (!es[i].ok || KeysNow(Run(w, es[..i])) == []);
      if i < n { assert FirstSnapshotAt(es[..n], i); }
    }
    if FirstSnapshotFails(w, es[..n]) {
      var i :| 0 <= i < n && FirstSnapshotAt(es[..n], i) && (!es[..n][i].ok || KeysNow(Run(w, es[..n][..i])) == []);
      assert FirstSnapshotAt(es, i);
    }
    if NoSnapshot(es[..n]) && es[n].Snapshot? { assert FirstSnapshotAt(es, n); }
  }

  predicate SnapshotRead(w: Watcher) {
    w.phase.Snapshotted? ==> |w.readAt| > 0 && w.readAt[|w.readAt| - 1] == w.phase.revision
  }

  lemma SnapshotStep(w: World, e: Step)
    requires Enabled(w, e) && SnapshotRead(w.watcher)
    ensures SnapshotRead(Next(w, e).watcher)
  {
  }

  lemma {:induction false} SnapshotIsLastRead(w: World, es: seq<Step>)
    requires Fresh(w) && Legal(w, es)
    ensures SnapshotRead(Run(w, es).watcher)
  {
    if |es| > 0 {
      hide Next, Enabled, SnapshotRead;
      SnapshotIsLastRead(w, es[..|es| - 1]);
      SnapshotStep(Run(w, es[..|es| - 1]), es[|es| - 1]);
    }
  }

  /**
   A watch opens just behind the list it reported, so it misses no change and is sent none again; only
   behind the revision 0 of a store never written to does it open at the present.
  */
  lemma {:induction false} OpensWhereItRead(w: World, es: seq<Step>)
    requires Fresh(w) && Legal(w, es) && Enabled(Run(w, es), Open)
    ensures var v := Next(Run(w, es), Open);
      var readAt := v.watcher.readAt;
      && |readAt| > 0
      && v.watcher.phase == Listening(if readAt[|readAt| - 1] > 0 then readAt[|readAt| - 1] + 1 else |v.history|)
  {
    SnapshotIsLastRead(w, es);
  }

  /** The store has no revision yet, and a first call of Watch would find nothing and fail. */
  ghost predicate Untried(w: World) {
    && |w.history| == 1 && IsHistory(w.history) && w.history[0].keys == []
    && w.watcher.reported == [] && w.watcher.readAt == []
    && (w.watcher.phase.Stopped? || (w.watcher.phase.Starting? && !w.watcher.wait))
  }

  lemma {:induction false} UntriedOrInv(w: World, es: seq<Step>)
    requires Fresh(w) && Legal(w, es) && Untried(w)
    ensures Untried(Run(w, es)) || Inv(Run(w, es))
  {
    if |es| > 0 {
      UntriedOrInv(w, es[..|es| - 1]);
      var v, e := Run(w, es[..|es| - 1]), es[|es| - 1];
      if Untried(v) {
        NonEmpty(v.history[0].keys);
      } else {
        Keeps(v, e);
      }
    }
  }

  /**
   Asking for the revision after the snapshot is what loses nothing. On a store still at revision 0
   the watch starts at whatever revision is current when it opens; so updates can be lost exactly
   there, unless the watch fails on the empty list first. etcd itself starts at revision 1.
  */
  lemma {:induction false} LosesNothingIff(w: World)
    requires Fresh(w)
    ensures (forall es: seq<Step> | Legal(w, es) && Run(w, es).watcher.phase.Listening? && NothingPending(Run(w, es)) ::
              UpToDate(Run(w, es)))
       <==> |w.history| > 1 || (!w.watcher.wait && w.history[0].keys == [])
  {
    if |w.history| > 1 || (!w.watcher.wait && w.history[0].keys == []) {
      forall es: seq<Step> | Legal(w, es) && Run(w, es).watcher.phase.Listening? && NothingPending(Run(w, es))
        ensures UpToDate(Run(w, es))
      {
        if |w.history| > 1 { InvAlways(w, es); } else { UntriedOrInv(w, es); }
        QuietIsUpToDate(Run(w, es));
      }
    } else {
      var es := LostAtRevisionZero(w);
    }
  }

  lemma QuietIsUpToDate(v: World)
    requires Inv(v) && v.watcher.phase.Listening? && NothingPending(v)
    ensures UpToDate(v)
  {
    UntouchedKeepsKeys(v.history, v.watcher.readAt[|v.watcher.readAt| - 1], Current(v.history));
  }

  lemma LossInSteps(w: World, later: seq<string>)
    requires Fresh(w) && |w.history| == 1 && (w.watcher.wait || w.history[0].keys != [])
    requires Addresses(later) != Addresses(w.history[0].keys)
    ensures Enabled(w, Snapshot(true))
    ensures var w1 := Next(w, Snapshot(true));
      Enabled(w1, Write(later, true)) && var w2 := Next(w1, Write(later, true));
      Enabled(w2, Open) && var v := Next(w2, Open);
      v.watcher.phase.Listening? && NothingPending(v) && !UpToDate(v)
  {
    hide Addresses;
    NonEmpty(w.history[0].keys);
  }

  /** The first write falls between snapshot and watch. */
  lemma LostAtRevisionZero(w: World) returns (es: seq<Step>)
    requires Fresh(w) && |w.history| == 1 && (w.watcher.wait || w.history[0].keys != [])
    ensures Legal(w, es) && Run(w, es).watcher.phase.Listening? && NothingPending(Run(w, es)) && !UpToDate(Run(w, es))
  {
    hide Addresses, Next, Enabled, NothingPending, UpToDate;
    var later := if w.history[0].keys == [] then ["a"] else [];
    NonEmpty(w.history[0].keys);
    NonEmpty(later);
    LossInSteps(w, later);
    assert Run(w, []) == w;
    RunExtends(w, [], Snapshot(true));
    var e1 := [] + [Snapshot(true)];
    RunExtends(w, e1, Write(later, true));
    var e2 := e1 + [Write(later, true)];
    RunExtends(w, e2, Open);
    es := e2 + [Open];
  }

  lemma RunExtends(w: World, es: seq<Step>, e: Step)
    requires Legal(w, es) && Enabled(Run(w, es), e)
    ensures Legal(w, es + [e]) && Run(w, es + [e]) == Next(Run(w, es), e)
  {
    assert (es + [e])[..|es|] == es;
  }

  lemma Regroup(a: seq<Step>, b: seq<Step>, c: seq<Step>)
    ensures a + (b + c) == (a + b) + c
  {
  }

  ghost predicate UpToDate(w: World) {
    && w.watcher.phase.Listening? && |w.history| > 0 && NothingPending(w)
    && |w.watcher.reported| > 0
    && w.watcher.reported[|w.watcher.reported| - 1] == Addresses(w.history[Current(w.history)].keys)
  }

  /** Snapshot, open, receive what is pending, read again. */
  lemma CatchUpListening(w: World, es: seq<Step>) returns (fs: seq<Step>)
    requires Inv(w) && Legal(w, es) && Run(w, es).watcher.phase.Listening?
    ensures |fs| <= 2 && Legal(w, es + fs) && UpToDate(Run(w, es + fs)) && Run(w, es + fs).history == Run(w, es).history
  {
    InvAlways(w, es);
    var v := Run(w, es);
    RunExtends(w, es, Receive(Current(v.history)));
    var e1 := es + [Receive(Current(v.history))];
    RunExtends(w, e1, Reread(true));
    fs := [Receive(Current(v.history)), Reread(true)];
    assert es + fs == e1 + [Reread(true)];
  }

  lemma NonEmpty(keys: seq<string>)
    ensures Addresses(keys) == [] <==> keys == []
  {
    AddressesAreBaseNames(keys);
    if keys != [] { assert Base(keys[0]) in Addresses(keys); }
  }

  lemma CatchUpStarting(w: World, es: seq<Step>) returns (fs: seq<Step>)
    requires Inv(w) && Legal(w, es) && Run(w, es).watcher.phase.Starting?
    requires Run(w, es).watcher.wait || Run(w, es).history[Current(Run(w, es).history)].keys != []
    ensures |fs| <= 4 && Legal(w, es + fs) && UpToDate(Run(w, es + fs)) && Run(w, es + fs).history == Run(w, es).history
  {
    hide Addresses;
    InvAlways(w, es);
    var v := Run(w, es);
    var keys := v.history[Current(v.history)].keys;
    NonEmpty(keys);
    RunExtends(w, es, Snapshot(true));
    var e1 := es + [Snapshot(true)];
    InvAlways(w, e1);
    RunExtends(w, e1, Open);
    var e2 := e1 + [Open];
    var rest := CatchUpListening(w, e2);
    fs := [Snapshot(true), Open] + rest;
    assert es + [Snapshot(true), Open] == e2;
    Regroup(es, [Snapshot(true), Open], rest);
  }

  /**
   From every state of a watch that has not been stopped, once the store rests, at most six
   successful steps bring the callback up to date; only a watch that does not wait has to end on an
   empty first list.
  */
  lemma {:induction false} AlwaysRecovers(w: World, es: seq<Step>) returns (fs: seq<Step>)
    requires Begins(w) && Legal(w, es) && !Run(w, es).watcher.phase.Stopped?
    requires Run(w, es).watcher.phase.Starting? && !Run(w, es).watcher.wait ==>
      Run(w, es).history[Current(Run(w, es).history)].keys != []
    ensures |fs| <= 6 && Legal(w, es + fs) && UpToDate(Run(w, es + fs)) && Run(w, es + fs).history == Run(w, es).history
  {
    hide Addresses;
    InvAlways(w, es);
    var e1, head := es, [];
    match Run(w, es).watcher.phase {
      case Broken => head := [Restart];
      case Snapshotted(_) => head := [Open];
      case Rereading(_) => head := [Reread(true)];
      case _ =>
    }
    if head != [] {
      RunExtends(w, es, head[0]);
      assert es + head == es + [head[0]];
      e1 := es + head;
    }
    assert e1 == es + head;
    var rest;
    if Run(w, e1).watcher.phase.Starting? {
      rest := CatchUpStarting(w, e1);
    } else {
      rest := CatchUpListening(w, e1);
    }
    fs := head + rest;
    Regroup(es, head, rest);
  }

  // ---------------------------------------------------------------- the watch as an object

  /** A reply to a read of the prefix, taken at the store's current revision. */
  datatype Reply = Failed | Listed(keys: seq<string>, revision: nat)

  ghost predicate Answers(r: Reply, history: seq<Revision>) {
    && |history| > 0
    && (r.Listed? ==> r.revision == Current(history) && r.keys == history[Current(history)].keys)
  }

  class ServiceWatch {
    const wait: bool
    var phase: Phase
    var reported: seq<seq<string>>
    ghost var readAt: seq<nat>

    ghost function View(): Watcher
      reads this
    {
      Watcher(wait, phase, reported, readAt)
    }

    constructor (wait: bool)
      ensures View() == Watcher(wait, Starting, [], [])
    {
      this.wait, phase, reported, readAt := wait, Starting, [], [];
    }

    /** Read the list and report it, before any watch exists. */
    method TakeSnapshot(r: Reply, ghost history: seq<Revision>)
      requires phase.Starting? && Answers(r, history)
      modifies this
      ensures View() == AfterSnapshot(old(View()), history, r.Listed?)
    {
      if r.Failed? {
        phase := if wait then Broken else Stopped;
        return;
      }
      var addresses := ServiceAddresses(r.keys);
      if |addresses| == 0 && !wait {
        phase := Stopped;
        return;
      }
      reported := reported + [addresses];
      readAt := readAt + [r.revision];
      phase := Snapshotted(r.revision);
    }

    /** Open the watch while the server is at revision current; the revision asked of it, if one is. */
    method OpenWatch(current: nat) returns (from: Option<nat>)
      requires phase.Snapshotted?
      modifies this
      ensures from == WatchFrom(old(phase).revision)
      ensures forall history: seq<Revision> | |history| > 0 && Current(history) == current ::
        World(history, View()) == Next(World(history, old(View())), Open)
    {
      from := None;
      if phase.revision > 0 {
        from := Some(phase.revision + 1);
      }
      phase := Listening(if from.Some? then from.value else current + 1);
    }

    /** A response arrives: its events are not looked at, the list is read again instead. */
    method OnResponse(upto: nat)
      requires phase.Listening? && phase.cursor <= upto + 1
      modifies this
      ensures forall history: seq<Revision> | upto < |history| ::
        World(history, View()) == Next(World(history, old(View())), Receive(upto))
    {
      phase := Rereading(upto + 1);
    }

    /** An empty list is reported as such; any other failure ends the watch. */
    method OnReread(r: Reply, ghost history: seq<Revision>)
      requires phase.Rereading? && Answers(r, history)
      modifies this
      ensures View() == AfterReread(old(View()), history, r.Listed?)
    {
      if r.Failed? {
        phase := Broken;
        return;
      }
      var addresses := ServiceAddresses(r.keys);
      if addresses == [] {
        reported := reported + [[]];
      } else {
        reported := reported + [addresses];
      }
      readAt := readAt + [r.revision];
      phase := Listening(phase.cursor);
    }
  }
}
