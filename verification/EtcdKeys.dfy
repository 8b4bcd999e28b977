/**
 The key layout shared by registration and discovery (grpc/etcd.go): an instance of a service is
 stored under path.Join(prefix, service, address), and a lookup asks for every key that begins with
 path.Join(prefix, service) and a slash. Join and Base are those of Go's path package, so names may
 hold slashes, dots and empty elements.
*/
module EtcdKeys {

  // ---------------------------------------------------------------- path.Join

  function FirstSlash(s: string): (k: nat)
    ensures k <= |s| && '/' !in s[..k]
    ensures k < |s| ==> s[k] == '/'
  {
    if s == "" || s[0] == '/' then 0
    else
      var k := FirstSlash(s[1..]);
      assert s[..k + 1] == [s[0]] + s[1..][..k];
      k + 1
  }

  /** The elements between slashes, empty ones included. */
  function Split(s: string): (es: seq<string>)
    ensures |es| > 0 && forall e | e in es :: '/' !in e
    decreases |s|
  {
    var k := FirstSlash(s);
    if k == |s| then
      assert s[..k] == s;
      [s]
    else [s[..k]] + Split(s[k + 1..])
  }

  /** One element moves the path: nothing and "." stay, ".." goes up unless at the top. */
  function Move(rooted: bool, at: seq<string>, e: string): seq<string> {
    if e == "" || e == "." then at
    else if e == ".." then
      if |at| > 0 && at[|at| - 1] != ".." then at[..|at| - 1]
      else if rooted then at
      else at + [e]
    else at + [e]
  }

  function Walk(rooted: bool, at: seq<string>, es: seq<string>): seq<string>
    decreases |es|
  {
    if |es| == 0 then at else Walk(rooted, Move(rooted, at, es[0]), es[1..])
  }

  function Joined(es: seq<string>): string {
    if |es| == 0 then "" else if |es| == 1 then es[0] else es[0] + "/" + Joined(es[1..])
  }

  function Render(rooted: bool, es: seq<string>): string {
    if rooted then "/" + Joined(es) else if es == [] then "." else Joined(es)
  }

  predicate Rooted(path: string) {
    path != "" && path[0] == '/'
  }

  function Clean(path: string): string {
    if path == "" then "." else Render(Rooted(path), Walk(Rooted(path), [], Split(path)))
  }

  /** The names that are not empty at the start, with slashes between. */
  function Glue(names: seq<string>): string {
    if |names| == 0 then ""
    else
      var front, last := Glue(names[..|names| - 1]), names[|names| - 1];
      if front == "" then last else front + "/" + last
  }

  function Join(names: seq<string>): string {
    if Glue(names) == "" then "" else Clean(Glue(names))
  }

  function InstanceKey(prefix: string, service: string, address: string): string {
    Join([prefix, service, address])
  }

  /** The trailing slash is part of the lookup. */
  function ServicePrefix(prefix: string, service: string): string {
    Join([prefix, service]) + "/"
  }

  // ---------------------------------------------------------------- path.Base

  function TrimSlashes(s: string): string {
    if s != "" && s[|s| - 1] == '/' then TrimSlashes(s[..|s| - 1]) else s
  }

  function AfterSlash(s: string): string {
    if '/' !in s then s else AfterSlash(s[1..])
  }

  function Base(key: string): string {
    if key == "" then "." else if TrimSlashes(key) == "" then "/" else AfterSlash(TrimSlashes(key))
  }

  // ---------------------------------------------------------------- what names resolve to

  function Home(prefix: string): seq<string> {
    Walk(Rooted(prefix), [], Split(prefix))
  }

  /** The elements of the place a service name leads to, below the prefix or not. */
  function ServicePath(prefix: string, service: string): seq<string> {
    Walk(Rooted(prefix), Home(prefix), Split(service))
  }

  function KeyPath(prefix: string, service: string, address: string): seq<string> {
    Walk(Rooted(prefix), ServicePath(prefix, service), Split(address))
  }

  /** Elements a cleaned path can have. */
  ghost predicate Elements(es: seq<string>) {
    forall e | e in es :: e != "" && '/' !in e && e != "."
  }

  lemma SplitHead(head: string, tail: string)
    requires '/' !in head
    ensures Split(head + "/" + tail) == [head] + Split(tail)
  {
    FirstSlashConcat(head, tail);
    var s, k := head + "/" + tail, FirstSlash(head);
    assert s[..k] == head && s[k + 1..] == tail;
  }

  lemma Peel(s: string) returns (head: string, tail: string)
    ensures '/' !in head && |tail| <= |s|
    ensures if '/' in s then s == head + "/" + tail && |tail| < |s| && Split(s) == [head] + Split(tail)
      else s == head && Split(s) == [s]
  {
    var k := FirstSlash(s);
    head, tail := s[..k], s[if k < |s| then k + 1 else k..];
    if k == |s| { assert s[..k] == s; }
  }

  lemma {:induction false} SplitConcat(a: string, b: string)
    ensures Split(a + "/" + b) == Split(a) + Split(b)
    decreases |a|
  {
    hide Split;
    var head, tail := Peel(a);
    if '/' in a {
      Regroup(head, tail, b);
      SplitHead(head, tail + "/" + b);
      SplitConcat(tail, b);
      assert [head] + (Split(tail) + Split(b)) == [head] + Split(tail) + Split(b);
    } else {
      SplitHead(a, b);
    }
  }

  lemma Regroup(a: string, b: string, c: string)
    ensures a + "/" + b + "/" + c == a + "/" + (b + "/" + c)
  {
  }

  lemma {:induction false} FirstSlashConcat(a: string, b: string)
    ensures FirstSlash(a + "/" + b) == FirstSlash(a)
  {
    var s := a + "/" + b;
    if a != "" && a[0] != '/' {
      assert s[1..] == a[1..] + "/" + b;
      FirstSlashConcat(a[1..], b);
    }
  }

  lemma {:induction false} WalkConcat(rooted: bool, at: seq<string>, a: seq<string>, b: seq<string>)
    ensures Walk(rooted, at, a + b) == Walk(rooted, Walk(rooted, at, a), b)
    decreases |a|
  {
    if |a| == 0 {
      assert a + b == b;
    } else {
      assert (a + b)[1..] == a[1..] + b;
      WalkConcat(rooted, Move(rooted, at, a[0]), a[1..], b);
    }
  }

  lemma WalkOne(rooted: bool, at: seq<string>, e: string)
    ensures Walk(rooted, at, [e]) == Move(rooted, at, e)
  {
    assert [e][1..] == [];
  }

  lemma MoveElements(rooted: bool, at: seq<string>, e: string)
    requires Elements(at) && '/' !in e
    ensures Elements(Move(rooted, at, e))
  {
  }

  lemma {:induction false} WalkElements(rooted: bool, at: seq<string>, es: seq<string>)
    requires Elements(at) && forall e | e in es :: '/' !in e
    ensures Elements(Walk(rooted, at, es))
    decreases |es|
  {
    if |es| > 0 {
      assert es[0] in es && forall e | e in es[1..] :: e in es;
      MoveElements(rooted, at, es[0]);
      WalkElements(rooted, Move(rooted, at, es[0]), es[1..]);
    }
  }

  lemma JoinsResolve(prefix: string, service: string, address: string)
    requires prefix != ""
    ensures Join([prefix, service]) == Render(Rooted(prefix), ServicePath(prefix, service))
    ensures InstanceKey(prefix, service, address) == Render(Rooted(prefix), KeyPath(prefix, service, address))
    ensures Elements(ServicePath(prefix, service)) && Elements(KeyPath(prefix, service, address))
  {
    var r := Rooted(prefix);
    var two := prefix + "/" + service;
    var three := two + "/" + address;
    assert [prefix][..0] == [] && Glue([prefix]) == prefix;
    assert [prefix, service][..1] == [prefix] && Glue([prefix, service]) == two;
    assert [prefix, service, address][..2] == [prefix, service] && Glue([prefix, service, address]) == three;
    assert Rooted(two) == r && Rooted(three) == r;
    SplitConcat(prefix, service);
    SplitConcat(two, address);
    WalkConcat(r, [], Split(prefix), Split(service));
    WalkConcat(r, [], Split(two), Split(address));
    WalkElements(r, [], Split(prefix));
    WalkElements(r, Home(prefix), Split(service));
    WalkElements(r, ServicePath(prefix, service), Split(address));
  }

  // ---------------------------------------------------------------- prefixes of rendered paths

  lemma SlashDecides(a: string, b: string, x: string, y: string)
    requires '/' !in a && '/' !in b
    ensures a + "/" + x <= b + "/" + y <==> a == b && x <= y
  {
    var left, right := a + "/" + x, b + "/" + y;
    assert left[|a|] == '/' && right[|b|] == '/';
    if left <= right {
      assert a == left[..|a|] == right[..|a|] == b;
      assert x == left[|a| + 1..] && y == right[|a| + 1..];
    }
    if a == b && x <= y {
      assert y == x + y[|x|..];
      assert right == left + y[|x|..];
    }
  }

  lemma NoSlashNoPrefix(a: string, x: string, b: string)
    requires '/' !in b
    ensures !(a + "/" + x <= b)
  {
    assert (a + "/" + x)[|a|] == '/';
  }

  lemma {:induction false} JoinedPrefix(w: seq<string>, k: seq<string>)
    requires |w| > 0
    requires (forall e | e in w :: e != "" && '/' !in e) && forall e | e in k :: e != "" && '/' !in e
    ensures Joined(w) + "/" <= Joined(k) <==> w < k
  {
    var rest := if |w| == 1 then "" else Joined(w[1..]) + "/";
    assert Joined(w) + "/" == w[0] + "/" + rest;
    if |k| == 0 {
    } else if |k| == 1 {
      assert k[0] in k;
      NoSlashNoPrefix(w[0], rest, k[0]);
    } else {
      assert w[0] in w && k[0] in k;
      SlashDecides(w[0], k[0], rest, Joined(k[1..]));
      assert w == [w[0]] + w[1..] && k == [k[0]] + k[1..];
      if |w| > 1 {
        assert (forall e | e in w[1..] :: e in w) && forall e | e in k[1..] :: e in k;
        JoinedPrefix(w[1..], k[1..]);
        assert w < k <==> w[0] == k[0] && w[1..] < k[1..];
      }
    }
  }

  lemma RenderedPrefix(rooted: bool, w: seq<string>, k: seq<string>)
    requires Elements(w) && Elements(k)
    ensures Render(rooted, w) + "/" <= Render(rooted, k) <==> w != [] && w < k
  {
    if w != [] { JoinedPrefix(w, k); }
    if rooted {
      AddFront(Joined(w) + "/", Joined(k));
      assert Render(rooted, w) + "/" == "/" + (Joined(w) + "/");
      if w == [] { NoLeadingSlash(k); }
    } else if w == [] {
      JoinedPrefix(["."], k);
      if ["."] < k { assert k[0] in k; }
    } else if k == [] {
      assert w[0] in w;
    }
  }

  lemma AddFront(x: string, y: string)
    ensures "/" + x <= "/" + y <==> x <= y
  {
    assert ("/" + x)[1..] == x && ("/" + y)[1..] == y;
    if x <= y { assert "/" + y == ("/" + x) + y[|x|..]; }
  }

  lemma NoLeadingSlash(k: seq<string>)
    requires Elements(k)
    ensures !("/" <= Joined(k))
  {
    if k != [] {
      assert k[0] in k;
      assert Joined(k)[0] == k[0][0];
    }
  }

  // ---------------------------------------------------------------- main theorems

  /**
   For all names: a lookup finds an instance exactly when the place the wanted name leads to is not
   the top and lies properly above the place of the instance. (Both constructors replace an empty
   prefix by the default one.)
  */
  lemma LookupFindsIff(prefix: string, wanted: string, service: string, address: string)
    requires prefix != ""
    ensures ServicePrefix(prefix, wanted) <= InstanceKey(prefix, service, address)
       <==> ServicePath(prefix, wanted) != [] && ServicePath(prefix, wanted) < KeyPath(prefix, service, address)
  {
    JoinsResolve(prefix, wanted, address);
    JoinsResolve(prefix, service, address);
    RenderedPrefix(Rooted(prefix), ServicePath(prefix, wanted), KeyPath(prefix, service, address));
  }

  /** A single element that path.Join keeps as it is. */
  predicate Plain(name: string) {
    name != "" && '/' !in name && name != "." && name != ".."
  }

  /** A name all of whose elements are kept. */
  ghost predicate Tidy(name: string) {
    forall e | e in Split(name) :: Plain(e)
  }

  lemma {:induction false} WalkTidy(rooted: bool, at: seq<string>, es: seq<string>)
    requires forall e | e in es :: Plain(e)
    ensures Walk(rooted, at, es) == at + es
    decreases |es|
  {
    if |es| == 0 {
      assert at + es == at;
    } else {
      assert es[0] in es && forall e | e in es[1..] :: e in es;
      WalkTidy(rooted, at + [es[0]], es[1..]);
      assert at + [es[0]] + es[1..] == at + es;
    }
  }

  lemma SplitPlain(name: string)
    requires Plain(name)
    ensures Split(name) == [name]
  {
    var k := FirstSlash(name);
  }

  /** One name's elements begin another's exactly when the names are equal or the first is a parent. */
  lemma {:induction false} SplitPrefix(a: string, b: string)
    ensures Split(a) <= Split(b) <==> a == b || a + "/" <= b
    decreases |a|
  {
    hide Split;
    var head, x := Peel(a);
    var other, y := Peel(b);
    assert a + "/" + "" == a + "/";
    if '/' !in b {
      NoSlashNoPrefix(a, "", b);
      assert [a] + [] == [a] && [b] + [] == [b];
      AddElement(head, b, if '/' in a then Split(x) else [], []);
    } else if '/' !in a {
      SlashDecides(a, other, "", y);
      AddElement(a, other, [], Split(y));
      assert [a] + [] == [a];
    } else {
      ParentHasParent(head, other, x, y);
      SplitPrefix(x, y);
      AddElement(head, other, Split(x), Split(y));
    }
  }

  lemma ParentHasParent(head: string, other: string, x: string, y: string)
    requires '/' !in head && '/' !in other
    ensures (head + "/" + x == other + "/" + y || head + "/" + x + "/" <= other + "/" + y)
       <==> head == other && (x == y || x + "/" <= y)
  {
    SlashDecides(head, other, x, y);
    SlashDecides(other, head, y, x);
    SlashDecides(head, other, x + "/", y);
    assert head + "/" + x + "/" == head + "/" + (x + "/");
    if head + "/" + x == other + "/" + y {
      assert x <= y && y <= x;
    }
  }

  lemma AddElement(a: string, b: string, x: seq<string>, y: seq<string>)
    ensures [a] + x <= [b] + y <==> a == b && x <= y
  {
    assert ([a] + x)[1..] == x && ([b] + y)[1..] == y;
    assert ([a] + x)[0] == a && ([b] + y)[0] == b;
    if a == b && x <= y { assert [b] + y == ([a] + x) + y[|x|..]; }
  }

  /**
   For names without empty or dot elements: the instances found are those of the service itself and
   of every service named below it, so the trailing slash separates siblings ("orders" and
   "orders-canary") but not a service whose own name continues the wanted one after a slash.
  */
  lemma TidyLookup(prefix: string, wanted: string, service: string, address: string)
    requires prefix != "" && Tidy(wanted) && Tidy(service) && Plain(address)
    ensures ServicePrefix(prefix, wanted) <= InstanceKey(prefix, service, address)
       <==> wanted == service || wanted + "/" <= service
  {
    LookupFindsIff(prefix, wanted, service, address);
    TidyPaths(prefix, wanted, address);
    TidyPaths(prefix, service, address);
    BelowHome(Home(prefix), Split(wanted), Split(service), address);
    SplitPrefix(wanted, service);
  }

  lemma TidyPaths(prefix: string, service: string, address: string)
    requires Tidy(service) && Plain(address)
    ensures ServicePath(prefix, service) == Home(prefix) + Split(service)
    ensures KeyPath(prefix, service, address) == Home(prefix) + Split(service) + [address]
  {
    WalkTidy(Rooted(prefix), Home(prefix), Split(service));
    SplitPlain(address);
    WalkTidy(Rooted(prefix), Home(prefix) + Split(service), [address]);
  }

  lemma BelowHome(home: seq<string>, w: seq<string>, s: seq<string>, address: string)
    requires |w| > 0
    ensures home + w < home + s + [address] <==> w <= s
  {
    var left, right := home + w, home + s + [address];
    assert left[|home|..] == w && right[|home|..] == s + [address];
    if w <= s {
      assert right == left + (s[|w|..] + [address]);
    }
    if left < right {
      assert w == right[|home|..][..|w|] == s[..|w|];
    }
  }

  /** Plain service names are separated: a lookup finds exactly the instances of the wanted one. */
  lemma LookupSeparatesServices(prefix: string, wanted: string, service: string, address: string)
    requires prefix != "" && Plain(wanted) && Plain(service) && Plain(address)
    ensures ServicePrefix(prefix, wanted) <= InstanceKey(prefix, service, address) <==> wanted == service
  {
    SplitPlain(wanted);
    SplitPlain(service);
    TidyLookup(prefix, wanted, service, address);
    NoSlashNoPrefix(wanted, "", service);
    assert wanted + "/" + "" == wanted + "/";
  }

  /** Dots are resolved: asking for "." below a prefix with an element finds every tidy service there. */
  lemma DotFindsEveryService(prefix: string, service: string, address: string)
    requires prefix != "" && Home(prefix) != [] && Tidy(service) && Plain(address)
    ensures ServicePrefix(prefix, ".") <= InstanceKey(prefix, service, address)
  {
    LookupFindsIff(prefix, ".", service, address);
    var dot := ".";
    assert FirstSlash(dot[1..]) == 0;
    assert Split(dot) == [dot];
    WalkOne(Rooted(prefix), Home(prefix), dot);
    TidyPaths(prefix, service, address);
  }

  lemma {:induction false} AfterLastSlash(dir: string, name: string)
    requires '/' !in name
    ensures AfterSlash(dir + "/" + name) == name
  {
    var key := dir + "/" + name;
    assert key[|dir|] == '/';
    if dir == "" {
      assert key[1..] == name;
    } else {
      assert key[1..] == dir[1..] + "/" + name;
      AfterLastSlash(dir[1..], name);
    }
  }

  lemma {:induction false} JoinedBack(es: seq<string>, name: string)
    requires |es| > 0
    ensures Joined(es + [name]) == Joined(es) + "/" + name
  {
    var all := es + [name];
    if |es| == 1 {
      assert all[1..] == [name];
    } else {
      assert all[1..] == es[1..] + [name];
      JoinedBack(es[1..], name);
      assert es[0] + "/" + (Joined(es[1..]) + "/" + name) == es[0] + "/" + Joined(es[1..]) + "/" + name;
    }
  }

  /** A key is its address, or some directory, a slash and its address. */
  lemma RenderBack(rooted: bool, dir: seq<string>, name: string) returns (lead: string)
    ensures Render(rooted, dir + [name]) == if dir == [] && !rooted then name else lead + "/" + name
  {
    lead := if dir == [] then "" else if rooted then "/" + Joined(dir) else Joined(dir);
    if dir == [] {
      assert dir + [name] == [name];
    } else {
      JoinedBack(dir, name);
      assert "/" + (Joined(dir) + "/" + name) == ("/" + Joined(dir)) + "/" + name;
    }
  }

  lemma BaseOfElement(dir: string, name: string)
    requires name != "" && '/' !in name
    ensures Base(name) == name && Base(dir + "/" + name) == name
  {
    AfterLastSlash(dir, name);
    var key := dir + "/" + name;
    assert key[|key| - 1] == name[|name| - 1];
    assert name[|name| - 1] in name;
  }

  /** The base name of a cleaned path is its last element, or the name of the top. */
  lemma BaseOfRender(rooted: bool, es: seq<string>)
    requires Elements(es)
    ensures Base(Render(rooted, es)) == if es == [] then Top(rooted) else es[|es| - 1]
  {
    if es == [] {
      BaseOfElement("", ".");
      var slash := "/";
      assert slash[..0] == "" && TrimSlashes(slash) == TrimSlashes("");
    } else {
      hide Base, Render;
      var dir, name := es[..|es| - 1], es[|es| - 1];
      assert es == dir + [name] && name in es;
      var lead := RenderBack(rooted, dir, name);
      BaseOfElement(lead, name);
    }
  }

  /** The base name of a path that resolves to the top. */
  function Top(rooted: bool): string {
    if rooted then "/" else "."
  }

  /** Going up from here leads above the start of a relative path. */
  predicate EndsAbove(at: seq<string>) {
    at == [] || at[|at| - 1] == ".." || (|at| > 1 && at[|at| - 2] == "..")
  }

  lemma {:induction false} RootedNeverAbove(at: seq<string>, es: seq<string>)
    requires ".." !in at
    ensures ".." !in Walk(true, at, es)
    decreases |es|
  {
    if |es| > 0 {
      assert ".." !in Move(true, at, es[0]);
      RootedNeverAbove(Move(true, at, es[0]), es[1..]);
    }
  }

  lemma MoveShows(rooted: bool, at: seq<string>, e: string)
    requires Elements(at) && (rooted ==> ".." !in at) && '/' !in e
    ensures var to := Move(rooted, at, e);
      (if to == [] then Top(rooted) else to[|to| - 1]) == e
      <==> Plain(e) || (!rooted && ((at == [] && e == ".") || (e == ".." && EndsAbove(at))))
  {
    assert at != [] ==> at[|at| - 1] in at;
    assert |at| > 1 ==> at[|at| - 2] in at;
  }

  /** Which elements a service name leads to: never above the root, and clean ones. */
  lemma ServicePathClean(prefix: string, service: string)
    ensures Elements(ServicePath(prefix, service))
    ensures Rooted(prefix) ==> ".." !in ServicePath(prefix, service)
  {
    var r := Rooted(prefix);
    WalkElements(r, [], Split(prefix));
    WalkElements(r, Home(prefix), Split(service));
    if r {
      RootedNeverAbove([], Split(prefix));
      RootedNeverAbove(Home(prefix), Split(service));
    }
  }

  lemma SlashSplits(address: string)
    ensures '/' !in address ==> Split(address) == [address]
    ensures Split("/") == ["", ""]
  {
    var k := FirstSlash(address);
    var slash := "/";
    assert slash[..0] == "" && slash[1..] == "";
  }

  /**
   For all names: discovery reads the registered address back exactly when it is one plain element,
   or service and address both lead to the top (or the address ".." above it) and the address
   happens to be what the reader calls that place.
  */
  lemma AddressIsReadBackIff(prefix: string, service: string, address: string)
    requires prefix != ""
    ensures Base(InstanceKey(prefix, service, address)) == address
       <==> || Plain(address)
            || (ServicePath(prefix, service) == [] && address == Top(Rooted(prefix)))
            || (!Rooted(prefix) && address == ".." && EndsAbove(ServicePath(prefix, service)))
  {
    hide Join, Base, Render, Split, Home, Move;
    var r, at := Rooted(prefix), ServicePath(prefix, service);
    JoinsResolve(prefix, service, address);
    ServicePathClean(prefix, service);
    SlashSplits(address);
    BaseOfRender(r, KeyPath(prefix, service, address));
    if '/' !in address {
      WalkOne(r, at, address);
      MoveShows(r, at, address);
    } else {
      if address == "/" { SlashStays(r, at); }
      var kp := KeyPath(prefix, service, address);
      assert kp != [] ==> kp[|kp| - 1] in kp;
    }
  }

  lemma SlashStays(rooted: bool, at: seq<string>)
    ensures Walk(rooted, at, Split("/")) == at
  {
    SlashSplits("/");
    assert ["", ""][1..] == [""] && [""][1..] == [];
  }

  /** A tidy service below a prefix that does not end above its start: plain addresses and no others. */
  lemma AddressIsReadBack(prefix: string, service: string, address: string)
    requires prefix != "" && Tidy(service)
    requires Home(prefix) != [] ==> Home(prefix)[|Home(prefix)| - 1] != ".."
    ensures Base(InstanceKey(prefix, service, address)) == address <==> Plain(address)
  {
    var home, names := Home(prefix), Split(service);
    AddressIsReadBackIff(prefix, service, address);
    WalkTidy(Rooted(prefix), home, names);
    var at := home + names;
    assert at[|at| - 1] == names[|names| - 1] && names[|names| - 1] in names;
    if |names| > 1 {
      assert at[|at| - 2] == names[|names| - 2] && names[|names| - 2] in names;
    } else if home != [] {
      assert at[|at| - 2] == home[|home| - 1];
    }
  }

  /** A socket is registered without complaint and discovered under another name. */
  lemma SocketAddressIsLost(prefix: string, service: string)
    requires prefix != ""
    ensures Base(InstanceKey(prefix, service, "unix:///tmp/s.sock")) == "s.sock"
  {
    hide Join, Base, Render, Walk, Split, Home, Glue, ServicePath;
    var r, at := Rooted(prefix), ServicePath(prefix, service);
    SplitSocket();
    WalkConcat(r, at, ["unix:", "", "", "tmp"], ["s.sock"]);
    WalkOne(r, Walk(r, at, ["unix:", "", "", "tmp"]), "s.sock");
    JoinsResolve(prefix, service, "unix:///tmp/s.sock");
    BaseOfRender(r, KeyPath(prefix, service, "unix:///tmp/s.sock"));
  }

  lemma SplitSocket()
    ensures Split("unix:///tmp/s.sock") == ["unix:", "", "", "tmp"] + ["s.sock"]
  {
    hide Split;
    assert "unix:///tmp/s.sock" == "unix:" + "/" + ("" + "/" + ("" + "/" + ("tmp" + "/" + "s.sock")));
    SplitHead("unix:", "" + "/" + ("" + "/" + ("tmp" + "/" + "s.sock")));
    SplitHead("", "" + "/" + ("tmp" + "/" + "s.sock"));
    SplitHead("", "tmp" + "/" + "s.sock");
    SplitHead("tmp", "s.sock");
    SlashSplits("s.sock");
  }
}
