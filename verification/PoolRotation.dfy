/**
 The objects inside one connection pool of grpc_client.go: the rotating choice of a usable client,
 closing, and building a pool connection by connection.
*/
module PoolRotation {
  import opened Common

  /** The counter is a uint64 and wraps around, also inside start + offset. */
  const WORD := 0x1_0000_0000_0000_0000

  function Wrap(x: nat): nat {
    if x < WORD then x else x - WORD
  }

  /** The index looked at for an offset. */
  function Visit(start: nat, offset: nat, n: nat): nat
    requires n > 0
  {
    Wrap(start + offset) % n
  }

  ghost predicate Visited(start: nat, n: nat, i: nat)
    requires n > 0
  {
    exists offset :: 0 <= offset < n && Visit(start, offset, n) == i
  }

  // ---------------------------------------------------------------- arithmetic of one rotation

  lemma ModUnique(x: nat, q: nat, r: nat, n: nat)
    requires n > 0 && r < n && x == q * n + r
    ensures x % n == r
  {
    var d := x / n - q;
    assert x == (x / n) * n + x % n;
    assert d * n == r - x % n;
  }

  /** Adding to a number below its multiple of n moves its remainder, at most once round. */
  lemma ModAdd(a: nat, b: nat, n: nat)
    requires n > 0 && b < n
    ensures (a + b) % n == if a % n + b < n then a % n + b else a % n + b - n
  {
    var q := a / n;
    assert a == q * n + a % n;
    if a % n + b < n {
      ModUnique(a + b, q, a % n + b, n);
    } else {
      assert a + b == (q + 1) * n + (a % n + b - n);
      ModUnique(a + b, q + 1, a % n + b - n, n);
    }
  }

  lemma UnwrappedVisitsAll(start: nat, n: nat, i: nat)
    requires 0 < n && i < n && start + n <= WORD
    ensures Visited(start, n, i)
  {
    var offset := if i >= start % n then i - start % n else i - start % n + n;
    ModAdd(start, offset, n);
    assert Visit(start, offset, n) == i;
  }

  /** Before the wrap come the last remainders of WORD, after it the first ones. */
  lemma WrappedVisit(start: nat, offset: nat, n: nat)
    requires 0 < n <= WORD && start < WORD && start + n > WORD && offset < n
    ensures var k, r := WORD - start, WORD % n;
      Visit(start, offset, n) ==
        if offset >= k then offset - k
        else if r + offset >= k then r + offset - k
        else r + offset - k + n
  {
    var k, r := WORD - start, WORD % n;
    if offset >= k {
      assert start + offset - WORD == offset - k;
      ModUnique(offset - k, 0, offset - k, n);
    } else {
      ModAdd(start + offset, k - offset, n);
      assert start + offset + (k - offset) == WORD;
      var m := (start + offset) % n;
      assert r == if m + (k - offset) < n then m + (k - offset) else m + (k - offset) - n;
    }
  }

  lemma EvenWrapVisitsAll(start: nat, n: nat, i: nat)
    requires 0 < n <= WORD && start < WORD && start + n > WORD && WORD % n == 0 && i < n
    ensures Visited(start, n, i)
  {
    var k := WORD - start;
    var offset := if i + k < n then i + k else i + k - n;
    WrappedVisit(start, offset, n);
    assert Visit(start, offset, n) == i;
  }

  lemma UnevenWrapMisses(start: nat, n: nat) returns (i: nat)
    requires 0 < n <= WORD && start < WORD && start + n > WORD && WORD % n != 0
    ensures i < n && !Visited(start, n, i)
  {
    var k, r := WORD - start, WORD % n;
    i := if n - k >= r then n - k else r;
    forall offset | 0 <= offset < n ensures Visit(start, offset, n) != i {
      WrappedVisit(start, offset, n);
    }
  }

  /**
   One call looks at every client exactly when the counter does not wrap during it, or the number
   of clients divides the counter's range.
  */
  lemma {:induction false} LooksAtAllIff(start: nat, n: nat)
    requires 0 < n <= WORD && start < WORD
    ensures (forall i | 0 <= i < n :: Visited(start, n, i))
      <==> start + n <= 0x1_0000_0000_0000_0000 || 0x1_0000_0000_0000_0000 % n == 0
  {
    if start + n <= WORD {
      forall i | 0 <= i < n ensures Visited(start, n, i) { UnwrappedVisitsAll(start, n, i); }
    } else if WORD % n == 0 {
      forall i | 0 <= i < n ensures Visited(start, n, i) { EvenWrapVisitsAll(start, n, i); }
    } else {
      var i := UnevenWrapMisses(start, n);
    }
  }

  /** n calls in a row that do not wrap begin at n different clients. */
  lemma {:induction false} CallsRotate(start: nat, n: nat, a: nat, b: nat)
    requires 0 < n && a < b < n && start + n <= WORD
    ensures Visit(start + a, 0, n) != Visit(start + b, 0, n)
  {
    ModAdd(start, a, n);
    ModAdd(start, b, n);
  }

  // ---------------------------------------------------------------- the choice

  /** The first usable client in the order of the offsets from one on, if any. */
  function Choose(usable: seq<bool>, start: nat, offset: nat): (r: Option<nat>)
    requires |usable| > 0
    ensures r.Some? ==> r.value < |usable|
    decreases |usable| - offset
  {
    if offset >= |usable| then None
    else if usable[Visit(start, offset, |usable|)] then Some(Visit(start, offset, |usable|))
    else Choose(usable, start, offset + 1)
  }

  ghost predicate FirstUsable(usable: seq<bool>, start: nat, from: nat, o: nat)
    requires |usable| > 0
  {
    && usable[Visit(start, o, |usable|)]
    && forall o' | from <= o' < o :: !usable[Visit(start, o', |usable|)]
  }

  /**
   The choice is the usable client with the least offset; and it misses every usable client only if
   none is visited.
  */
  lemma {:induction false} ChooseIsFirst(usable: seq<bool>, start: nat, from: nat)
    requires |usable| > 0
    ensures var r := Choose(usable, start, from);
      match r
      case None => forall o | from <= o < |usable| :: !usable[Visit(start, o, |usable|)]
      case Some(i) => exists o :: from <= o < |usable| && FirstUsable(usable, start, from, o) && Visit(start, o, |usable|) == i
    decreases |usable| - from
  {
    if from < |usable| {
      var i := Visit(start, from, |usable|);
      if !usable[i] {
        ChooseIsFirst(usable, start, from + 1);
      }
    }
  }

  /** With no uneven wrap, nothing is chosen exactly when nothing is usable. */
  lemma {:induction false} NothingChosenIff(usable: seq<bool>, start: nat)
    requires 0 < |usable| <= WORD && start < WORD
    requires start + |usable| <= WORD || WORD % |usable| == 0
    ensures Choose(usable, start, 0).None? <==> forall i | 0 <= i < |usable| :: !usable[i]
  {
    ChooseIsFirst(usable, start, 0);
    LooksAtAllIff(start, |usable|);
    if Choose(usable, start, 0).None? {
      forall i | 0 <= i < |usable| ensures !usable[i] {
        assert Visited(start, |usable|, i);
      }
    }
  }

  /** During an uneven wrap a pool with one usable client can report that it has none. */
  lemma {:induction false} UsableClientMissed(start: nat, n: nat) returns (usable: seq<bool>)
    requires 0 < n <= WORD && start < WORD && start + n > WORD && WORD % n != 0
    ensures |usable| == n && true in usable && Choose(usable, start, 0).None?
  {
    var i := UnevenWrapMisses(start, n);
    usable := seq(n, j requires 0 <= j < n => j == i);
    assert usable[i];
    ChooseIsFirst(usable, start, 0);
  }

  // ---------------------------------------------------------------- the objects

  class Client {
    var open: bool       // conn != nil
    var shutdown: bool   // the connection has shut down by itself

    predicate IsUsable()
      reads this
    {
      open && !shutdown
    }

    constructor ()
      ensures open && !shutdown
    {
      open, shutdown := true, false;
    }

    /** The connection is gone whatever error closing it reports. */
    method Close(fails: bool) returns (ok: bool)
      modifies this
      ensures !open && shutdown == old(shutdown) && ok == (!old(open) || !fails)
    {
      ok := !open || !fails;
      open := false;
    }
  }

  ghost predicate Distinct(clients: seq<Client>) {
    forall i, j | 0 <= i < j < |clients| :: clients[i] != clients[j]
  }

  ghost function UsableOf(clients: seq<Client>): (r: seq<bool>)
    reads clients
    ensures |r| == |clients|
  {
    seq(|clients|, i requires 0 <= i < |clients| reads clients => clients[i].IsUsable())
  }

  class ClientPool {
    var clients: seq<Client>
    var index: nat

    constructor (clients: seq<Client>)
      ensures this.clients == clients && index == 0
    {
      this.clients, index := clients, 0;
    }

    method GetClient() returns (client: Option<Client>)
      requires index < WORD
      modifies this`index
      ensures |clients| == 0 ==> client.None? && index == old(index)
      ensures |clients| > 0 ==> index == Wrap(old(index) + 1)
      ensures |clients| > 0 ==>
        var choice := Choose(UsableOf(clients), old(index), 0);
        client == if choice.Some? then Some(clients[choice.value]) else None
    {
      if |clients| == 0 {
        return None;
      }
      var start := index;
      index := if index + 1 < WORD then index + 1 else 0;
      ghost var usable := UsableOf(clients);
      for offset := 0 to |clients|
        invariant usable == UsableOf(clients)
        invariant Choose(usable, start, 0) == Choose(usable, start, offset)
      {
        var at := start + offset;
        if at >= WORD {
          at := at - WORD;
        }
        var idx := at % |clients|;
        if clients[idx].IsUsable() {
          return Some(clients[idx]);
        }
      }
      return None;
    }

    /** Every client is closed, errors or not, and the pool is left empty. */
    method Close(fails: seq<bool>) returns (ok: bool)
      requires |fails| == |clients|
      modifies this, clients
      ensures clients == [] && index == old(index)
      ensures forall c | c in old(clients) :: !c.open
      ensures (forall i | 0 <= i < |fails| :: !fails[i]) ==> ok
      ensures Distinct(old(clients)) ==> (ok <==> forall i | 0 <= i < |fails| :: !(old(clients[i].open) && fails[i]))
    {
      ok := true;
      for i := 0 to |clients|
        invariant clients == old(clients) && index == old(index)
        invariant forall j | 0 <= j < i :: !clients[j].open
        invariant (forall j | 0 <= j < i :: !fails[j]) ==> ok
        invariant Distinct(clients) ==> forall j | i <= j < |clients| :: clients[j].open == old(clients[j].open)
        invariant Distinct(clients) ==> (ok <==> forall j | 0 <= j < i :: !(old(clients[j].open) && fails[j]))
      {
        var closed := clients[i].Close(fails[i]);
        ok := ok && closed;
      }
      clients := [];
    }
  }

  /** What becomes of one attempt: no client, a client that does not connect, or a connected one. */
  datatype Attempt = NotMade | NotConnected | Connected

  /**
   Building a pool of the configured size. On the first failure every client made so far is closed,
   the one that did not connect included. made lists every client this call created.
  */
  method CreateClientPool(poolSize: int, outcome: seq<Attempt>) returns (pool: Option<ClientPool>, made: seq<Client>)
    requires |outcome| >= (if poolSize <= 0 then 1 else poolSize)
    ensures var size := if poolSize <= 0 then 1 else poolSize;
      && (pool.Some? <==> forall i | 0 <= i < size :: outcome[i].Connected?)
      && (pool.Some? ==> fresh(pool.value) && pool.value.clients == made && |made| == size && pool.value.index == 0)
      && (pool.Some? ==> forall c | c in made :: c.IsUsable())
      && (pool.None? ==> forall c | c in made :: !c.open)
      && (pool.None? ==> exists k :: 0 <= k < size && FailsAt(outcome, k, |made|))
    ensures forall c | c in made :: fresh(c)
    ensures forall i, j | 0 <= i < j < |made| :: made[i] != made[j]
  {
    var size := if poolSize <= 0 then 1 else poolSize;
    made := [];
    for i := 0 to size
      invariant |made| == i && forall j | 0 <= j < i :: outcome[j].Connected?
      invariant fresh(made) && forall c | c in made :: c.IsUsable()
      invariant forall j, k | 0 <= j < k < |made| :: made[j] != made[k]
    {
      if outcome[i].NotMade? {
        CloseMade(made);
        assert FailsAt(outcome, i, |made|);
        return None, made;
      }
      var client := new Client();
      if outcome[i].NotConnected? {
        var _ := client.Close(false);
        CloseMade(made);
        made := made + [client];
        assert FailsAt(outcome, i, |made|);
        return None, made;
      }
      made := made + [client];
    }
    var built := new ClientPool(made);
    pool := Some(built);
  }

  /** Attempt k is the first to fail, by when n clients have been made. */
  ghost predicate FailsAt(outcome: seq<Attempt>, k: nat, n: nat) {
    && k < |outcome| && !outcome[k].Connected? && (forall j | 0 <= j < k :: outcome[j].Connected?)
    && n == if outcome[k].NotConnected? then k + 1 else k
  }

  method CloseMade(clients: seq<Client>)
    modifies clients
    ensures forall c | c in clients :: !c.open
  {
    for i := 0 to |clients|
      invariant forall j | 0 <= j < i :: !clients[j].open
    {
      var _ := clients[i].Close(false);
    }
  }
}
