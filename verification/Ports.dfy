/** The port column of the container list: sorting, and grouping consecutive ports into ranges. */
module Ports {
  import Paths = MountPaths
  import opened Values

  datatype Port = Port(ip: string, privatePort: int, publicPort: int, kind: string)

  /** A piece of the output: a range of ports under a group key, or a single host mapping. */
  datatype Item = Range(key: string, first: int, last: int) | HostMapping(port: Port)

  datatype Group = Group(first: int, last: int)

  // ---------------------------------------------------------------------------
  // Sorting

  /** Strings in dictionary order. */
  predicate Before(a: string, b: string) {
    b != "" && (a == "" || a[0] < b[0] || (a[0] == b[0] && Before(a[1..], b[1..])))
  }

  predicate Less(p: Port, q: Port) {
    if p.privatePort != q.privatePort then p.privatePort < q.privatePort
    else if p.ip != q.ip then Before(p.ip, q.ip)
    else if p.publicPort != q.publicPort then p.publicPort < q.publicPort
    else Before(p.kind, q.kind)
  }

  ghost predicate Sorted(ports: seq<Port>) {
    forall i, j :: 0 <= i < j < |ports| ==> !Less(ports[j], ports[i])
  }

  lemma {:induction false} BeforeTotal(a: string, b: string)
    ensures !Before(a, a)
    ensures a == b || Before(a, b) || Before(b, a)
    ensures !(Before(a, b) && Before(b, a))
  {
    if a != "" {
      BeforeTotal(a[1..], a[1..]);
      if b != "" && a[0] == b[0] {
        BeforeTotal(a[1..], b[1..]);
        if a[1..] == b[1..] {
          assert a == [a[0]] + a[1..] && b == [b[0]] + b[1..];
        }
      }
    }
  }

  lemma {:induction false} BeforeTransitive(a: string, b: string, c: string)
    requires Before(a, b) && Before(b, c)
    ensures Before(a, c)
  {
    if a != "" && a[0] == b[0] == c[0] {
      BeforeTransitive(a[1..], b[1..], c[1..]);
    }
  }

  /** Ports that neither precede each other are the same. */
  lemma LessTotal(p: Port, q: Port)
    ensures p == q || Less(p, q) || Less(q, p)
    ensures !(Less(p, q) && Less(q, p))
  {
    BeforeTotal(p.ip, q.ip);
    BeforeTotal(p.kind, q.kind);
  }

  lemma LessTransitive(p: Port, q: Port, r: Port)
    requires !Less(q, p) && !Less(r, q)
    ensures !Less(r, p)
  {
    BeforeTotal(p.ip, q.ip);
    BeforeTotal(q.ip, r.ip);
    BeforeTotal(p.ip, r.ip);
    BeforeTotal(p.kind, q.kind);
    BeforeTotal(q.kind, r.kind);
    BeforeTotal(p.kind, r.kind);
    if Before(p.ip, q.ip) && Before(q.ip, r.ip) {
      BeforeTransitive(p.ip, q.ip, r.ip);
    }
    if Before(p.kind, q.kind) && Before(q.kind, r.kind) {
      BeforeTransitive(p.kind, q.kind, r.kind);
    }
  }

  lemma SameHead(a: seq<Port>, b: seq<Port>)
    requires Sorted(a) && Sorted(b) && multiset(a) == multiset(b) && a != [] && b != []
    ensures a[0] == b[0]
  {
    assert a[0] in multiset(b) && b[0] in multiset(a);
    var i :| 0 <= i < |b| && b[i] == a[0];
    var j :| 0 <= j < |a| && a[j] == b[0];
    LessTotal(a[0], b[0]);
  }

  lemma SameTail(a: seq<Port>, b: seq<Port>)
    requires a != [] && b != [] && multiset(a) == multiset(b) && a[0] == b[0]
    ensures multiset(a[1..]) == multiset(b[1..])
  {
    assert a == [a[0]] + a[1..] && b == [b[0]] + b[1..];
    assert multiset(a[1..]) == multiset(a) - multiset{a[0]};
    assert multiset(b[1..]) == multiset(b) - multiset{b[0]};
  }

  /** Sorting leaves no choice: whatever order the ports come in, the sorted list is the same. */
  lemma {:induction false} SortedUnique(a: seq<Port>, b: seq<Port>)
    requires Sorted(a) && Sorted(b) && multiset(a) == multiset(b)
    ensures a == b
  {
    assert |multiset(a)| == |a| && |multiset(b)| == |b|;
    if a != [] {
      SameHead(a, b);
      SameTail(a, b);
      SortedUnique(a[1..], b[1..]);
      assert a == [a[0]] + a[1..] && b == [b[0]] + b[1..];
    }
  }

  /** The output does not depend on the order in which the ports are listed. */
  lemma OrderIrrelevant(a: seq<Port>, b: seq<Port>)
    requires multiset(a) == multiset(b)
    ensures Sort(a) == Sort(b)
  {
    SortSorts(a);
    SortSorts(b);
    SortedUnique(Sort(a), Sort(b));
  }

  function Insert(sorted: seq<Port>, p: Port): seq<Port> {
    if sorted == [] then [p]
    else if Less(p, sorted[0]) then [p] + sorted
    else [sorted[0]] + Insert(sorted[1..], p)
  }

  function Sort(ports: seq<Port>): seq<Port> {
    if ports == [] then [] else Insert(Sort(ports[1..]), ports[0])
  }

  lemma SortedCons(p: Port, sorted: seq<Port>)
    requires Sorted(sorted) && forall j :: 0 <= j < |sorted| ==> !Less(sorted[j], p)
    ensures Sorted([p] + sorted)
  {
  }

  lemma {:induction false} InsertAdds(sorted: seq<Port>, p: Port)
    ensures multiset(Insert(sorted, p)) == multiset(sorted) + multiset{p}
  {
    if sorted != [] {
      InsertAdds(sorted[1..], p);
      assert sorted == [sorted[0]] + sorted[1..];
    }
  }

  lemma {:induction false} InsertSorts(sorted: seq<Port>, p: Port)
    requires Sorted(sorted)
    ensures Sorted(Insert(sorted, p))
  {
    if sorted == [] {
    } else if Less(p, sorted[0]) {
      LessTotal(p, sorted[0]);
      forall j | 0 <= j < |sorted|
        ensures !Less(sorted[j], p)
      {
        LessTotal(sorted[0], sorted[0]);
        LessTransitive(p, sorted[0], sorted[j]);
      }
      SortedCons(p, sorted);
    } else {
      var rest := Insert(sorted[1..], p);
      InsertSorts(sorted[1..], p);
      InsertAdds(sorted[1..], p);
      forall j | 0 <= j < |rest|
        ensures !Less(rest[j], sorted[0])
      {
        assert rest[j] in multiset(rest);
        assert rest[j] in sorted[1..] || rest[j] == p;
      }
      SortedCons(sorted[0], rest);
    }
  }

  lemma {:induction false} SortSorts(ports: seq<Port>)
    ensures Sorted(Sort(ports)) && multiset(Sort(ports)) == multiset(ports)
  {
    if ports != [] {
      SortSorts(ports[1..]);
      InsertSorts(Sort(ports[1..]), ports[0]);
      InsertAdds(Sort(ports[1..]), ports[0]);
      assert ports == [ports[0]] + ports[1..];
    }
  }

  /** At the first place where the strings differ, `a` ends or has the smaller character. */
  ghost predicate DiffersAt(a: string, b: string, k: nat) {
    k <= |a| && k < |b| && a[..k] == b[..k] && (k == |a| || a[k] < b[k])
  }

  lemma {:induction false} BeforeIff(a: string, b: string)
    ensures Before(a, b) <==> exists k: nat :: DiffersAt(a, b, k)
  {
    if a != "" && b != "" && a[0] == b[0] {
      BeforeIff(a[1..], b[1..]);
      if Before(a, b) {
        var k: nat :| DiffersAt(a[1..], b[1..], k);
        assert a[..k + 1] == [a[0]] + a[1..][..k] && b[..k + 1] == [b[0]] + b[1..][..k];
        assert DiffersAt(a, b, k + 1);
      }
      if k: nat :| DiffersAt(a, b, k) {
        assert a[1..][..k - 1] == a[..k][1..] && b[1..][..k - 1] == b[..k][1..];
        assert DiffersAt(a[1..], b[1..], k - 1);
      }
    } else if Before(a, b) {
      assert DiffersAt(a, b, 0);
    } else {
      forall k: nat
        ensures !DiffersAt(a, b, k)
      {
        if 0 < k <= |a| && k <= |b| {
          assert a[..k][0] == a[0] && b[..k][0] == b[0];
        }
      }
    }
  }

  /** The order of the sorted list: by private port, then address, then public port, then protocol. */
  lemma SortedBy(ports: seq<Port>, i: nat, j: nat)
    requires i < j < |Sort(ports)|
    ensures var p, q := Sort(ports)[i], Sort(ports)[j];
            && p.privatePort <= q.privatePort
            && (p.privatePort == q.privatePort ==> p.ip == q.ip || Before(p.ip, q.ip))
            && (p.privatePort == q.privatePort && p.ip == q.ip ==> p.publicPort <= q.publicPort)
            && (p.privatePort == q.privatePort && p.ip == q.ip && p.publicPort == q.publicPort ==>
                  p.kind == q.kind || Before(p.kind, q.kind))
  {
    SortSorts(ports);
    BeforeTotal(Sort(ports)[i].ip, Sort(ports)[j].ip);
    BeforeTotal(Sort(ports)[i].kind, Sort(ports)[j].kind);
  }

  // ---------------------------------------------------------------------------
  // Group keys

  function Key(p: Port): string {
    if p.ip == "" then p.kind else p.ip + "/" + p.kind
  }

  /** What formatting reads back from a key: the address, if any, and the protocol. */
  function KeyParts(key: string): (string, string) {
    var parts := Paths.Split(key);
    if |parts| > 1 then (parts[0], parts[1]) else ("", parts[0])
  }

  /** The address and protocol survive the trip through the key exactly when neither contains a slash. */
  lemma KeyRoundTripIff(p: Port)
    ensures KeyParts(Key(p)) == (p.ip, p.kind) <==> '/' !in p.ip && '/' !in p.kind
  {
    if '/' !in p.ip && '/' !in p.kind {
      Paths.SplitPlain(p.kind);
      if p.ip != "" {
        Paths.SplitSlash(p.ip, p.kind);
      }
    }
  }

  // ---------------------------------------------------------------------------
  // Grouping

  predicate Grouped(p: Port) {
    p.ip == "" || p.publicPort == p.privatePort
  }

  function KeyedOne(p: Port, key: string): seq<int> {
    if Grouped(p) && Key(p) == key then [p.privatePort] else []
  }

  /** The private ports that belong to a key, in order. */
  function Keyed(ports: seq<Port>, key: string): seq<int> {
    if ports == [] then [] else Keyed(ports[..|ports| - 1], key) + KeyedOne(ports[|ports| - 1], key)
  }

  function MappedOne(p: Port): seq<Item> {
    if Grouped(p) then [] else [HostMapping(p)]
  }

  function Mapped(ports: seq<Port>): seq<Item> {
    if ports == [] then [] else Mapped(ports[..|ports| - 1]) + MappedOne(ports[|ports| - 1])
  }

  function Span(first: int, last: int): seq<int>
    decreases last - first
  {
    if first > last then [] else Span(first, last - 1) + [last]
  }

  function ItemPorts(item: Item, key: string): seq<int> {
    if item.Range? && item.key == key then Span(item.first, item.last) else []
  }

  /** All ports that the output shows under a key. */
  function Shown(items: seq<Item>, key: string): seq<int> {
    if items == [] then [] else Shown(items[..|items| - 1], key) + ItemPorts(items[|items| - 1], key)
  }

  function Mappings(items: seq<Item>): seq<Item> {
    if items == [] then []
    else Mappings(items[..|items| - 1]) + if items[|items| - 1].HostMapping? then [items[|items| - 1]] else []
  }

  /** The group a key has open, as ports. */
  function Open(groups: map<string, Group>, key: string): seq<int> {
    if key in groups then Span(groups[key].first, groups[key].last) else []
  }

  lemma ShownMore(items: seq<Item>, item: Item, key: string)
    ensures Shown(items + [item], key) == Shown(items, key) + ItemPorts(item, key)
    ensures Mappings(items + [item]) == Mappings(items) + if item.HostMapping? then [item] else []
  {
    assert (items + [item])[..|items + [item]| - 1] == items;
  }

  lemma KeyedMore(ports: seq<Port>, i: nat, key: string)
    requires i < |ports|
    ensures Keyed(ports[..i + 1], key) ==
            Keyed(ports[..i], key) + KeyedOne(ports[i], key)
    ensures Mapped(ports[..i + 1]) == Mapped(ports[..i]) + MappedOne(ports[i])
  {
    assert ports[..i + 1][..|ports[..i + 1]| - 1] == ports[..i];
  }

  lemma {:induction false} KeyedCons(p: Port, ports: seq<Port>, key: string)
    ensures Keyed([p] + ports, key) == KeyedOne(p, key) + Keyed(ports, key)
  {
    var all := [p] + ports;
    if ports == [] {
      assert all[..|all| - 1] == [] && all[|all| - 1] == p;
      NothingAfter(KeyedOne(p, key));
    } else {
      var init, last := ports[..|ports| - 1], ports[|ports| - 1];
      KeyedCons(p, init, key);
      assert all[..|all| - 1] == [p] + init && all[|all| - 1] == last;
      assert Keyed(all, key) == Keyed([p] + init, key) + KeyedOne(last, key);
      Associative(KeyedOne(p, key), Keyed(init, key), KeyedOne(last, key));
    }
  }

  lemma {:induction false} MappedCons(p: Port, ports: seq<Port>)
    ensures Mapped([p] + ports) == MappedOne(p) + Mapped(ports)
  {
    var all := [p] + ports;
    if ports == [] {
      assert all[..|all| - 1] == [] && all[|all| - 1] == p;
      NothingAfter(MappedOne(p));
    } else {
      var init, last := ports[..|ports| - 1], ports[|ports| - 1];
      MappedCons(p, init);
      assert all[..|all| - 1] == [p] + init && all[|all| - 1] == last;
      assert Mapped(all) == Mapped([p] + init) + MappedOne(last);
      Associative(MappedOne(p), Mapped(init), MappedOne(last));
    }
  }

  lemma CountCons(p: Port, ports: seq<Port>, key: string)
    ensures multiset(Keyed([p] + ports, key)) == multiset(KeyedOne(p, key)) + multiset(Keyed(ports, key))
    ensures multiset(Mapped([p] + ports)) == multiset(MappedOne(p)) + multiset(Mapped(ports))
  {
    KeyedCons(p, ports, key);
    MappedCons(p, ports);
  }

  lemma Exchange<T>(a: multiset<T>, b: multiset<T>, c: multiset<T>)
    ensures a + (b + c) == b + (a + c)
  {
  }

  lemma {:induction false} InsertKeeps(sorted: seq<Port>, p: Port, key: string)
    ensures multiset(Keyed(Insert(sorted, p), key)) == multiset(KeyedOne(p, key)) + multiset(Keyed(sorted, key))
    ensures multiset(Mapped(Insert(sorted, p))) == multiset(MappedOne(p)) + multiset(Mapped(sorted))
  {
    if sorted == [] || Less(p, sorted[0]) {
      assert Insert(sorted, p) == [p] + sorted;
      CountCons(p, sorted, key);
    } else {
      var first, rest := sorted[0], sorted[1..];
      InsertKeeps(rest, p, key);
      assert sorted == [first] + rest && Insert(sorted, p) == [first] + Insert(rest, p);
      CountCons(first, rest, key);
      CountCons(first, Insert(rest, p), key);
      Exchange(multiset(KeyedOne(first, key)), multiset(KeyedOne(p, key)), multiset(Keyed(rest, key)));
      Exchange(multiset(MappedOne(first)), multiset(MappedOne(p)), multiset(Mapped(rest)));
    }
  }

  /** Sorting changes neither the ports under a key nor the host mappings, counted with multiplicity. */
  lemma {:induction false} SortKeeps(ports: seq<Port>, key: string)
    ensures multiset(Keyed(Sort(ports), key)) == multiset(Keyed(ports, key))
    ensures multiset(Mapped(Sort(ports))) == multiset(Mapped(ports))
  {
    if ports != [] {
      var first, rest := ports[0], ports[1..];
      SortKeeps(rest, key);
      assert ports == [first] + rest;
      InsertKeeps(Sort(rest), first, key);
      CountCons(first, rest, key);
    }
  }

  /** Shown and still open ports together are exactly the ports seen so far, key by key. */
  ghost predicate Accounted(ports: seq<Port>, items: seq<Item>, groups: map<string, Group>) {
    forall key :: Shown(items, key) + Open(groups, key) == Keyed(ports, key)
  }

  /** Ranges of one key are apart: they neither overlap nor touch. */
  ghost predicate Apart(items: seq<Item>) {
    forall a, b :: 0 <= a < b < |items| && items[a].Range? && items[b].Range? && items[a].key == items[b].key ==>
                     items[a].last + 1 < items[b].first
  }

  /** No two grouped ports agree in key and private port. */
  ghost predicate DistinctPairs(ports: seq<Port>) {
    forall i, j :: 0 <= i < j < |ports| && Grouped(ports[i]) && Grouped(ports[j]) && Key(ports[i]) == Key(ports[j]) ==>
                     ports[i].privatePort != ports[j].privatePort
  }

  /** No number comes twice. */
  ghost predicate Once(s: seq<int>) {
    forall x :: multiset(s)[x] <= 1
  }

  lemma OnceMore(s: seq<int>, x: int)
    ensures Once(s + [x]) <==> Once(s) && x !in s
  {
    assert multiset(s + [x]) == multiset(s) + multiset{x};
    if Once(s + [x]) {
      forall y
        ensures multiset(s)[y] <= 1
      {
        assert multiset(s + [x])[y] <= 1;
      }
      assert multiset(s + [x])[x] <= 1;
    }
  }

  lemma {:induction false} KeyedHas(ports: seq<Port>, key: string, port: int)
    ensures port in Keyed(ports, key) <==>
            exists i :: 0 <= i < |ports| && Grouped(ports[i]) && Key(ports[i]) == key && ports[i].privatePort == port
  {
    if ports != [] {
      var init := ports[..|ports| - 1];
      KeyedHas(init, key, port);
      assert forall i :: 0 <= i < |init| ==> init[i] == ports[i];
    }
  }

  /** The ports of one more entry are distinct when those before are and it repeats none of them. */
  lemma DistinctMore(ports: seq<Port>)
    requires ports != []
    ensures var init, p := ports[..|ports| - 1], ports[|ports| - 1];
            DistinctPairs(ports) <==>
            DistinctPairs(init) && (Grouped(p) ==> p.privatePort !in Keyed(init, Key(p)))
  {
    var init, p := ports[..|ports| - 1], ports[|ports| - 1];
    KeyedHas(init, Key(p), p.privatePort);
    assert forall i :: 0 <= i < |init| ==> init[i] == ports[i];
    if DistinctPairs(ports) {
      forall i, j | 0 <= i < j < |init| && Grouped(init[i]) && Grouped(init[j]) && Key(init[i]) == Key(init[j])
        ensures init[i].privatePort != init[j].privatePort
      {
        assert ports[i] == init[i] && ports[j] == init[j];
      }
    }
  }

  ghost predicate OnceUnder(ports: seq<Port>, key: string) {
    Once(Keyed(ports, key))
  }

  lemma OnceStep(ports: seq<Port>, key: string)
    requires ports != []
    ensures var init, p := ports[..|ports| - 1], ports[|ports| - 1];
            OnceUnder(ports, key) <==>
            OnceUnder(init, key) && (Grouped(p) && Key(p) == key ==> p.privatePort !in Keyed(init, key))
  {
    var init, p := ports[..|ports| - 1], ports[|ports| - 1];
    if Grouped(p) && Key(p) == key {
      OnceMore(Keyed(init, key), p.privatePort);
    } else {
      NothingAfter(Keyed(init, key));
    }
  }

  lemma {:induction false} DistinctOnce(ports: seq<Port>, key: string)
    requires DistinctPairs(ports)
    ensures OnceUnder(ports, key)
  {
    if ports != [] {
      DistinctMore(ports);
      DistinctOnce(ports[..|ports| - 1], key);
      OnceStep(ports, key);
    }
  }

  lemma {:induction false} OnceDistinct(ports: seq<Port>)
    requires forall key :: OnceUnder(ports, key)
    ensures DistinctPairs(ports)
  {
    if ports != [] {
      var init, p := ports[..|ports| - 1], ports[|ports| - 1];
      forall key
        ensures OnceUnder(init, key)
      {
        assert OnceUnder(ports, key);
        OnceStep(ports, key);
      }
      OnceDistinct(init);
      assert OnceUnder(ports, Key(p));
      OnceStep(ports, Key(p));
      DistinctMore(ports);
    }
  }

  /** Sorting keeps ports distinct. */
  lemma SortDistinct(ports: seq<Port>)
    requires DistinctPairs(ports)
    ensures DistinctPairs(Sort(ports))
  {
    forall key
      ensures OnceUnder(Sort(ports), key)
    {
      SortKeeps(ports, key);
      DistinctOnce(ports, key);
    }
    OnceDistinct(Sort(ports));
  }

  ghost predicate Ascending(s: seq<int>) {
    forall i, j :: 0 <= i < j < |s| ==> s[i] <= s[j]
  }

  /** In sorted ports the ports of a key ascend. */
  lemma {:induction false} KeyedAscending(ports: seq<Port>, key: string)
    requires Sorted(ports)
    ensures Ascending(Keyed(ports, key))
  {
    if ports != [] {
      var init, p := ports[..|ports| - 1], ports[|ports| - 1];
      KeyedAscending(init, key);
      var before := Keyed(init, key);
      forall i | 0 <= i < |before|
        ensures before[i] <= p.privatePort
      {
        KeyedHas(init, key, before[i]);
        var j :| 0 <= j < |init| && init[j].privatePort == before[i];
        assert !Less(ports[|ports| - 1], ports[j]);
      }
    }
  }

  /** One of the first `n` ports belongs to the key and is `port`. */
  ghost predicate Seen(ports: seq<Port>, n: nat, key: string, port: int)
    requires n <= |ports|
  {
    exists i :: 0 <= i < n && Grouped(ports[i]) && Key(ports[i]) == key && ports[i].privatePort == port
  }

  /** An open group continues the closed ranges of its key after a gap. */
  ghost predicate Continues(item: Item, groups: map<string, Group>) {
    item.Range? ==> item.key in groups && item.last + 1 < groups[item.key].first
  }

  ghost predicate Separate(ports: seq<Port>, n: nat, items: seq<Item>, groups: map<string, Group>)
    requires n <= |ports|
  {
    && Apart(items)
    && (forall a :: 0 <= a < |items| ==> Continues(items[a], groups))
    && (forall key :: key in groups ==> groups[key].first <= groups[key].last && Seen(ports, n, key, groups[key].last))
  }

  /** The next state of the groups for a grouped port. */
  function Advance(groups: map<string, Group>, key: string, port: int): map<string, Group> {
    if key in groups && port == groups[key].last + 1 then groups[key := groups[key].(last := port)]
    else groups[key := Group(port, port)]
  }

  /** The range that a grouped port closes, if any. */
  function Closing(groups: map<string, Group>, key: string, port: int): seq<Item> {
    if key in groups && port != groups[key].last + 1 then [Range(key, groups[key].first, groups[key].last)] else []
  }

  lemma AccountOne(ports: seq<Port>, i: nat, items: seq<Item>, groups: map<string, Group>, k: string)
    requires i < |ports| && Grouped(ports[i]) && Shown(items, k) + Open(groups, k) == Keyed(ports[..i], k)
    requires forall k :: k in groups ==> groups[k].first <= groups[k].last
    ensures var key, port := Key(ports[i]), ports[i].privatePort;
            Shown(items + Closing(groups, key, port), k) + Open(Advance(groups, key, port), k) ==
            Keyed(ports[..i + 1], k)
  {
    var key, port := Key(ports[i]), ports[i].privatePort;
    var shown, open := Shown(items, k), Open(groups, k);
    KeyedMore(ports, i, k);
    ClosingShown(items, groups, key, port, k);
    AdvanceOpen(groups, key, port, k);
    if k == key && Closing(groups, key, port) == [] {
      Associative(shown, open, [port]);
    }
  }

  lemma Associative<T>(a: seq<T>, b: seq<T>, c: seq<T>)
    ensures a + (b + c) == a + b + c
  {
  }

  lemma ClosingShown(items: seq<Item>, groups: map<string, Group>, key: string, port: int, k: string)
    ensures Shown(items + Closing(groups, key, port), k) ==
            if k == key && Closing(groups, key, port) != [] then Shown(items, k) + Open(groups, k) else Shown(items, k)
  {
    if Closing(groups, key, port) == [] {
      assert items + [] == items;
    } else {
      ShownMore(items, Closing(groups, key, port)[0], k);
    }
  }

  lemma AdvanceOpen(groups: map<string, Group>, key: string, port: int, k: string)
    requires forall k :: k in groups ==> groups[k].first <= groups[k].last
    ensures Open(Advance(groups, key, port), k) ==
            if k != key then Open(groups, k)
            else if Closing(groups, key, port) != [] then [port]
            else Open(groups, k) + [port]
  {
    assert Span(port, port) == Span(port, port - 1) + [port] == [port];
  }

  lemma AccountStep(ports: seq<Port>, i: nat, items: seq<Item>, groups: map<string, Group>)
    requires i < |ports| && Grouped(ports[i]) && Accounted(ports[..i], items, groups)
    requires forall k :: k in groups ==> groups[k].first <= groups[k].last
    ensures var key, port := Key(ports[i]), ports[i].privatePort;
            && Accounted(ports[..i + 1], items + Closing(groups, key, port), Advance(groups, key, port))
            && Mappings(items + Closing(groups, key, port)) == Mappings(items)
  {
    var key, port := Key(ports[i]), ports[i].privatePort;
    forall k
      ensures Shown(items + Closing(groups, key, port), k) + Open(Advance(groups, key, port), k) ==
              Keyed(ports[..i + 1], k)
    {
      assert Shown(items, k) + Open(groups, k) == Keyed(ports[..i], k);
      AccountOne(ports, i, items, groups, k);
    }
    if Closing(groups, key, port) == [] {
      assert items + [] == items;
    } else {
      ShownMore(items, Closing(groups, key, port)[0], key);
    }
  }

  /** A port that comes later under the same key is larger. */
  lemma LaterIsLarger(ports: seq<Port>, i: nat, key: string, port: int)
    requires i < |ports| && Grouped(ports[i]) && Key(ports[i]) == key && Sorted(ports) && DistinctPairs(ports)
    requires Seen(ports, i, key, port)
    ensures port < ports[i].privatePort
  {
    var j :| 0 <= j < i && Grouped(ports[j]) && Key(ports[j]) == key && ports[j].privatePort == port;
    assert !Less(ports[i], ports[j]);
  }

  lemma ClosingApart(items: seq<Item>, groups: map<string, Group>, key: string, port: int)
    requires Apart(items) && forall a :: 0 <= a < |items| ==> Continues(items[a], groups)
    ensures Apart(items + Closing(groups, key, port))
  {
    var items' := items + Closing(groups, key, port);
    assert forall a :: 0 <= a < |items| ==> items'[a] == items[a];
    assert forall a :: 0 <= a < |items| ==> Continues(items[a], groups);
  }

  lemma AdvanceContinues(item: Item, groups: map<string, Group>, key: string, port: int)
    requires Continues(item, groups) && (key in groups ==> groups[key].first <= groups[key].last < port)
    ensures Continues(item, Advance(groups, key, port))
  {
  }

  lemma AdvanceSeen(ports: seq<Port>, i: nat, groups: map<string, Group>, k: string)
    requires i < |ports| && Grouped(ports[i]) && k in Advance(groups, Key(ports[i]), ports[i].privatePort)
    requires k in groups ==> groups[k].first <= groups[k].last && Seen(ports, i, k, groups[k].last)
    ensures var groups' := Advance(groups, Key(ports[i]), ports[i].privatePort);
            groups'[k].first <= groups'[k].last && Seen(ports, i + 1, k, groups'[k].last)
  {
    var groups' := Advance(groups, Key(ports[i]), ports[i].privatePort);
    if k == Key(ports[i]) {
      assert Grouped(ports[i]) && ports[i].privatePort == groups'[k].last;
    } else {
      var j :| 0 <= j < i && Grouped(ports[j]) && Key(ports[j]) == k && ports[j].privatePort == groups[k].last;
      assert Grouped(ports[j]);
    }
  }

  lemma SeparateStep(ports: seq<Port>, i: nat, items: seq<Item>, groups: map<string, Group>)
    requires i < |ports| && Grouped(ports[i]) && Sorted(ports) && DistinctPairs(ports)
    requires Separate(ports, i, items, groups)
    ensures var key, port := Key(ports[i]), ports[i].privatePort;
            Separate(ports, i + 1, items + Closing(groups, key, port), Advance(groups, key, port))
  {
    var key, port := Key(ports[i]), ports[i].privatePort;
    if key in groups {
      LaterIsLarger(ports, i, key, groups[key].last);
    }
    ClosingApart(items, groups, key, port);
    var items', groups' := items + Closing(groups, key, port), Advance(groups, key, port);
    forall k | k in groups'
      ensures groups'[k].first <= groups'[k].last && Seen(ports, i + 1, k, groups'[k].last)
    {
      AdvanceSeen(ports, i, groups, k);
    }
    forall a | 0 <= a < |items'|
      ensures Continues(items'[a], groups')
    {
      if a < |items| {
        AdvanceContinues(items[a], groups, key, port);
      }
    }
  }

  /** Emitting an open group as a range. */
  lemma FlushOne(items: seq<Item>, groups: map<string, Group>, key: string, k: string)
    requires key in groups
    ensures Shown(items + [Range(key, groups[key].first, groups[key].last)], k) + Open(groups - {key}, k) ==
            Shown(items, k) + Open(groups, k)
  {
    ShownMore(items, Range(key, groups[key].first, groups[key].last), k);
    if k == key {
      NothingAfter(Shown(items, k) + Open(groups, k));
    } else {
      NothingAfter(Shown(items, k));
    }
  }

  lemma NothingAfter<T>(s: seq<T>)
    ensures s + [] == s
  {
  }

  lemma Flush(ports: seq<Port>, items: seq<Item>, groups: map<string, Group>, key: string)
    requires Accounted(ports, items, groups) && key in groups
    ensures var items' := items + [Range(key, groups[key].first, groups[key].last)];
            Accounted(ports, items', groups - {key}) && Mappings(items') == Mappings(items)
  {
    var range := Range(key, groups[key].first, groups[key].last);
    forall k
      ensures Shown(items + [range], k) + Open(groups - {key}, k) == Keyed(ports, k)
    {
      FlushOne(items, groups, key, k);
    }
    ShownMore(items, range, key);
    NothingAfter(Mappings(items));
  }

  /** Ranges already shown stay clear of the groups still to be shown. */
  ghost predicate Clear(items: seq<Item>, groups: map<string, Group>) {
    && Apart(items)
    && forall a :: 0 <= a < |items| && items[a].Range? && items[a].key in groups ==>
                     items[a].last + 1 < groups[items[a].key].first
  }

  lemma FlushClear(items: seq<Item>, groups: map<string, Group>, key: string)
    requires Clear(items, groups) && key in groups
    ensures Clear(items + [Range(key, groups[key].first, groups[key].last)], groups - {key})
  {
    var items' := items + [Range(key, groups[key].first, groups[key].last)];
    assert forall a :: 0 <= a < |items| ==> items'[a] == items[a];
  }

  /** Host mappings at the end add no ports to the ranges before them. */
  lemma {:induction false} TrailingMappings(items: seq<Item>, n: nat, key: string)
    requires n <= |items| && forall i :: n <= i < |items| ==> items[i].HostMapping?
    ensures Shown(items, key) == Shown(items[..n], key)
    ensures Mappings(items) == Mappings(items[..n]) + items[n..]
  {
    var tail := items[n..];
    if |items| == n {
      assert items[..n] == items && tail == [];
      NothingAfter(Mappings(items));
    } else {
      var init, last := items[..|items| - 1], items[|items| - 1];
      TrailingMappings(init, n, key);
      SliceInit(items, n);
      NothingAfter(Shown(init, key));
      Associative(Mappings(items[..n]), init[n..], [last]);
    }
  }

  lemma SliceInit(items: seq<Item>, n: nat)
    requires n < |items|
    ensures var init := items[..|items| - 1]; init[..n] == items[..n] && items[n..] == init[n..] + [items[|items| - 1]]
  {
  }

  lemma {:induction false} NoMappings(items: seq<Item>)
    requires Mappings(items) == []
    ensures forall i :: 0 <= i < |items| ==> items[i].Range?
  {
    if items != [] {
      NoMappings(items[..|items| - 1]);
    }
  }

  lemma OnlyMovedAfter(ranges: seq<Item>, mapped: seq<Item>)
    requires OnlyMoved(mapped) && forall i :: 0 <= i < |ranges| ==> ranges[i].Range?
    ensures OnlyMoved(ranges + mapped)
  {
    var items := ranges + mapped;
    forall i | 0 <= i < |items| && items[i].HostMapping?
      ensures items[i].port.ip != "" && items[i].port.publicPort != items[i].port.privatePort
    {
      assert items[i] == mapped[i - |ranges|];
    }
  }

  lemma MappingsApart(items: seq<Item>, mapped: seq<Item>)
    requires Apart(items) && forall i :: 0 <= i < |mapped| ==> mapped[i].HostMapping?
    ensures Apart(items + mapped)
  {
    var all := items + mapped;
    forall a | 0 <= a < |all|
      ensures if a < |items| then all[a] == items[a] else all[a].HostMapping?
    {
      assert a >= |items| ==> all[a] == mapped[a - |items|];
    }
  }

  lemma {:induction false} MappedAreMappings(ports: seq<Port>)
    ensures forall i :: 0 <= i < |Mapped(ports)| ==> Mapped(ports)[i].HostMapping?
    ensures OnlyMoved(Mapped(ports))
  {
    if ports != [] {
      MappedAreMappings(ports[..|ports| - 1]);
    }
  }

  /** No range is empty. */
  ghost predicate Filled(items: seq<Item>) {
    forall i :: 0 <= i < |items| && items[i].Range? ==> items[i].first <= items[i].last
  }

  /** Only a port that is published under another number is listed on its own. */
  ghost predicate OnlyMoved(items: seq<Item>) {
    forall i :: 0 <= i < |items| && items[i].HostMapping? ==>
                  items[i].port.ip != "" && items[i].port.publicPort != items[i].port.privatePort
  }

  ghost predicate Opened(groups: map<string, Group>, keys: seq<string>) {
    && (forall key :: key in groups <==> key in keys)
    && (forall i, j :: 0 <= i < j < |keys| ==> keys[i] != keys[j])
    && (forall key :: key in groups ==> groups[key].first <= groups[key].last)
  }

  /** The group keys in the order in which the ports first mention them. */
  function FirstKeys(ports: seq<Port>): seq<string> {
    if ports == [] then []
    else
      var rest, last := FirstKeys(ports[..|ports| - 1]), ports[|ports| - 1];
      if Grouped(last) && Key(last) !in rest then rest + [Key(last)] else rest
  }

  lemma FirstKeysMore(ports: seq<Port>, i: nat)
    requires i < |ports|
    ensures FirstKeys(ports[..i + 1]) ==
            var rest := FirstKeys(ports[..i]);
            if Grouped(ports[i]) && Key(ports[i]) !in rest then rest + [Key(ports[i])] else rest
  {
    assert ports[..i + 1][..|ports[..i + 1]| - 1] == ports[..i];
  }

  /** The key belongs to one of the first `n` ports. */
  ghost predicate Mentioned(ports: seq<Port>, n: nat, key: string)
    requires n <= |ports|
  {
    exists i :: 0 <= i < n && Grouped(ports[i]) && Key(ports[i]) == key
  }

  lemma {:induction false} FirstKeysHas(ports: seq<Port>, key: string)
    ensures key in FirstKeys(ports) <==> Mentioned(ports, |ports|, key)
  {
    if ports != [] {
      var init := ports[..|ports| - 1];
      FirstKeysHas(init, key);
      assert forall i :: 0 <= i < |init| ==> init[i] == ports[i];
    }
  }

  /** Of two keys the one listed first is mentioned first. */
  lemma {:induction false} FirstKeysInOrder(ports: seq<Port>, i: nat, j: nat)
    requires i < j < |FirstKeys(ports)|
    ensures exists n :: 0 <= n <= |ports| &&
                        Mentioned(ports, n, FirstKeys(ports)[i]) && !Mentioned(ports, n, FirstKeys(ports)[j])
  {
    var init := ports[..|ports| - 1];
    var keys, before := FirstKeys(ports), FirstKeys(init);
    forall n, key | 0 <= n <= |init|
      ensures Mentioned(init, n, key) <==> Mentioned(ports, n, key)
    {
      assert forall a :: 0 <= a < n ==> init[a] == ports[a];
    }
    if j < |before| {
      FirstKeysInOrder(init, i, j);
      var n :| 0 <= n <= |init| && Mentioned(init, n, before[i]) && !Mentioned(init, n, before[j]);
      assert Mentioned(ports, n, keys[i]) && !Mentioned(ports, n, keys[j]);
    } else {
      FirstKeysHas(init, keys[i]);
      FirstKeysHas(init, keys[j]);
      assert keys[i] in before;
      assert Mentioned(ports, |init|, keys[i]) && !Mentioned(ports, |init|, keys[j]);
    }
  }

  /** The first `n` ports are accounted for, and if they are sorted and distinct, their ranges are apart. */
  ghost predicate Progress(ports: seq<Port>, n: nat, items: seq<Item>, groups: map<string, Group>)
    requires n <= |ports|
  {
    && Accounted(ports[..n], items, groups) && Mappings(items) == []
    && (Sorted(ports) && DistinctPairs(ports) ==> Separate(ports, n, items, groups))
  }

  lemma ProgressStep(ports: seq<Port>, i: nat, items: seq<Item>, groups: map<string, Group>, keys: seq<string>)
    requires i < |ports| && Progress(ports, i, items, groups) && Opened(groups, keys)
    ensures if Grouped(ports[i]) then
              var key, port := Key(ports[i]), ports[i].privatePort;
              Progress(ports, i + 1, items + Closing(groups, key, port), Advance(groups, key, port))
            else Progress(ports, i + 1, items, groups)
  {
    if Grouped(ports[i]) {
      AccountStep(ports, i, items, groups);
      if Sorted(ports) && DistinctPairs(ports) {
        SeparateStep(ports, i, items, groups);
      }
    } else {
      SkipUngrouped(ports, i, items, groups);
    }
  }

  /** Adds one grouped port to the groups. */
  method Place(key: string, current: int, closed: seq<Item>, groups: map<string, Group>, keys: seq<string>)
    returns (closed': seq<Item>, groups': map<string, Group>, keys': seq<string>)
    requires Opened(groups, keys)
    ensures closed' == closed + Closing(groups, key, current) && groups' == Advance(groups, key, current)
    ensures Opened(groups', keys') && keys' == if key in keys then keys else keys + [key]
    ensures Filled(closed) ==> Filled(closed')
  {
    closed', keys' := closed, keys;
    if key !in groups {
      groups' := groups[key := Group(current, current)];
      keys' := keys + [key];
    } else if current == groups[key].last + 1 {
      groups' := groups[key := groups[key].(last := current)];
    } else {
      closed' := closed + [Range(key, groups[key].first, groups[key].last)];
      groups' := groups[key := Group(current, current)];
    }
  }

  /** Groups the sorted ports: closed ranges, the groups left open in the order of their keys, and host mappings. */
  method GroupPorts(ports: seq<Port>)
    returns (closed: seq<Item>, groups: map<string, Group>, keys: seq<string>, mappings: seq<Item>)
    ensures Opened(groups, keys) && mappings == Mapped(ports) && Progress(ports, |ports|, closed, groups)
    ensures keys == FirstKeys(ports) && Filled(closed)
  {
    closed, groups, keys, mappings := [], map[], [], [];
    for i := 0 to |ports|
      invariant Opened(groups, keys) && mappings == Mapped(ports[..i]) && Progress(ports, i, closed, groups)
      invariant keys == FirstKeys(ports[..i]) && Filled(closed)
    {
      var port := ports[i];
      var current, portKey := port.privatePort, port.kind;
      KeyedMore(ports, i, portKey);
      FirstKeysMore(ports, i);
      ProgressStep(ports, i, closed, groups, keys);
      if port.ip != "" {
        if port.publicPort != current {
          mappings := mappings + [HostMapping(port)];
          continue;
        }
        portKey := port.ip + "/" + port.kind;
      }
      closed, groups, keys := Place(portKey, current, closed, groups, keys);
    }
    assert ports[..|ports|] == ports;
  }

  lemma SkipUngrouped(ports: seq<Port>, i: nat, items: seq<Item>, groups: map<string, Group>)
    requires i < |ports| && !Grouped(ports[i]) && Accounted(ports[..i], items, groups)
    ensures Accounted(ports[..i + 1], items, groups)
    ensures Separate(ports, i, items, groups) ==> Separate(ports, i + 1, items, groups)
  {
    forall k
      ensures Shown(items, k) + Open(groups, k) == Keyed(ports[..i + 1], k)
    {
      assert Shown(items, k) + Open(groups, k) == Keyed(ports[..i], k);
      KeyedMore(ports, i, k);
    }
    assert forall k, q :: Seen(ports, i, k, q) ==> Seen(ports, i + 1, k, q);
  }

  ghost function Elements(keys: seq<string>): set<string> {
    set key | key in keys
  }

  /** From item `n` on there is one range for each of the keys, in their order. */
  ghost predicate RangesFrom(items: seq<Item>, n: nat, keys: seq<string>) {
    n + |keys| <= |items| && forall i :: 0 <= i < |keys| ==> RangeOf(items, n + i, keys[i])
  }

  ghost predicate RangeOf(items: seq<Item>, i: nat, key: string)
    requires i < |items|
  {
    items[i].Range? && items[i].key == key
  }

  lemma RangesMore(items: seq<Item>, n: nat, keys: seq<string>, i: nat, first: int, last: int)
    requires i < |keys| && |items| == n + i && RangesFrom(items, n, keys[..i])
    ensures RangesFrom(items + [Range(keys[i], first, last)], n, keys[..i + 1])
  {
    var longer, more := items + [Range(keys[i], first, last)], keys[..i + 1];
    forall j | 0 <= j < |more|
      ensures RangeOf(longer, n + j, more[j])
    {
      if j < i {
        assert RangeOf(items, n + j, keys[..i][j]);
      }
    }
  }

  lemma PendingStep(groups: map<string, Group>, keys: seq<string>, i: nat)
    requires Opened(groups, keys) && i < |keys|
    ensures var pending := groups - Elements(keys[..i]);
            && keys[i] in pending && pending[keys[i]] == groups[keys[i]]
            && pending - {keys[i]} == groups - Elements(keys[..i + 1])
  {
    assert keys[i] in groups && keys[i] !in keys[..i];
    assert Elements(keys[..i + 1]) == Elements(keys[..i]) + {keys[i]};
  }

  /** Shows the groups that are still open, in the order of their keys. */
  method ShowGroups(ghost ports: seq<Port>, closed: seq<Item>, groups: map<string, Group>, keys: seq<string>)
    returns (items: seq<Item>)
    requires Opened(groups, keys) && Accounted(ports, closed, groups) && Mappings(closed) == []
    ensures Accounted(ports, items, map[]) && Mappings(items) == []
    ensures Clear(closed, groups) ==> Apart(items)
    ensures RangesFrom(items, |closed|, keys) && |items| == |closed| + |keys|
    ensures Filled(closed) ==> Filled(items)
  {
    items := closed;
    ghost var pending := groups;
    for i := 0 to |keys|
      invariant pending == groups - Elements(keys[..i])
      invariant Accounted(ports, items, pending) && Mappings(items) == []
      invariant Clear(closed, groups) ==> Clear(items, pending)
      invariant |items| == |closed| + i && RangesFrom(items, |closed|, keys[..i])
      invariant Filled(closed) ==> Filled(items)
    {
      var key := keys[i];
      PendingStep(groups, keys, i);
      Flush(ports, items, pending, key);
      if Clear(closed, groups) {
        FlushClear(items, pending, key);
      }
      RangesMore(items, |closed|, keys, i, groups[key].first, groups[key].last);
      items := items + [Range(key, groups[key].first, groups[key].last)];
      pending := pending - {key};
    }
    assert keys[..|keys|] == keys;
    assert pending == map[];
  }

  lemma SeparateClear(ports: seq<Port>, items: seq<Item>, groups: map<string, Group>)
    requires Separate(ports, |ports|, items, groups)
    ensures Clear(items, groups)
  {
    assert forall a :: 0 <= a < |items| ==> Continues(items[a], groups);
  }

  lemma AccountedShown(ports: seq<Port>, items: seq<Item>, key: string)
    requires Accounted(ports, items, map[])
    ensures Shown(items, key) == Keyed(ports, key)
  {
    assert Shown(items, key) + Open(map[], key) == Keyed(ports, key);
  }

  /** Host mappings after the ranges complete the output. */
  lemma MappingsLast(ports: seq<Port>, ranges: seq<Item>, mapped: seq<Item>)
    requires Accounted(ports, ranges, map[]) && Mappings(ranges) == []
    requires forall i :: 0 <= i < |mapped| ==> mapped[i].HostMapping?
    ensures forall key :: Shown(ranges + mapped, key) == Keyed(ports, key)
    ensures Mappings(ranges + mapped) == mapped
  {
    var items := ranges + mapped;
    assert items[..|ranges|] == ranges && items[|ranges|..] == mapped;
    forall key
      ensures Shown(items, key) == Keyed(ports, key)
    {
      AccountedShown(ports, ranges, key);
      TrailingMappings(items, |ranges|, key);
    }
    TrailingMappings(items, |ranges|, "");
  }

  /** The output ends with the last range of each key, in the order of the keys, and then the host mappings. */
  ghost predicate LastInOrder(items: seq<Item>, keys: seq<string>, mapped: seq<Item>) {
    && |keys| + |mapped| <= |items| && items[|items| - |mapped|..] == mapped
    && RangesFrom(items, |items| - |mapped| - |keys|, keys)
  }

  lemma RangesThenMappings(shown: seq<Item>, n: nat, keys: seq<string>, mapped: seq<Item>)
    requires RangesFrom(shown, n, keys) && |shown| == n + |keys|
    ensures LastInOrder(shown + mapped, keys, mapped)
  {
    var items := shown + mapped;
    forall i | 0 <= i < |keys|
      ensures RangeOf(items, n + i, keys[i])
    {
      assert RangeOf(shown, n + i, keys[i]);
    }
    assert items[|items| - |mapped|..] == mapped;
  }

  /** The output for sorted ports: nothing is lost or made up, and ranges of one key neither overlap nor touch. */
  method DisplaySorted(sorted: seq<Port>) returns (items: seq<Item>)
    requires Sorted(sorted)
    ensures forall key :: Shown(items, key) == Keyed(sorted, key)
    ensures Mappings(items) == Mapped(sorted)
    ensures DistinctPairs(sorted) ==> Apart(items)
    ensures LastInOrder(items, FirstKeys(sorted), Mapped(sorted)) && Filled(items) && OnlyMoved(items)
  {
    var closed, groups, keys, mappings := GroupPorts(sorted);
    assert sorted[..|sorted|] == sorted;
    if DistinctPairs(sorted) {
      SeparateClear(sorted, closed, groups);
    }
    var shown := ShowGroups(sorted, closed, groups, keys);
    MappedAreMappings(sorted);
    items := shown + mappings;
    MappingsLast(sorted, shown, mappings);
    if DistinctPairs(sorted) {
      MappingsApart(shown, mappings);
    }
    RangesThenMappings(shown, |closed|, keys, mappings);
    NoMappings(shown);
    OnlyMovedAfter(shown, mappings);
  }

  // ---------------------------------------------------------------------------
  // Reading the output

  /** One port as a reader of the output sees it: without a host address there is no public port to see. */
  datatype Line = Line(ip: string, public: Option<int>, private: int, kind: string)

  /** What a port has to read. */
  function LineOf(p: Port): Line {
    Line(p.ip, if p.ip == "" then None else Some(p.publicPort), p.privatePort, p.kind)
  }

  /** What a number in a range under a key reads; a range with an address maps every port to itself. */
  function RangeLine(pair: (string, int)): Line {
    var (ip, kind) := KeyParts(pair.0);
    Line(ip, if ip == "" then None else Some(pair.1), pair.1, kind)
  }

  function Map<S, T>(f: S -> T, s: seq<S>): (mapped: seq<T>)
    ensures |mapped| == |s| && forall i :: 0 <= i < |s| ==> mapped[i] == f(s[i])
  {
    seq(|s|, i requires 0 <= i < |s| => f(s[i]))
  }

  function SpanPairs(key: string, first: int, last: int): seq<(string, int)>
    decreases last - first
  {
    if first > last then [] else SpanPairs(key, first, last - 1) + [(key, last)]
  }

  /** A range expanded into its ports, or the one port of a host mapping. */
  function ItemLines(item: Item): seq<Line> {
    if item.Range? then Map(RangeLine, SpanPairs(item.key, item.first, item.last))
    else [Line(item.port.ip, Some(item.port.publicPort), item.port.privatePort, item.port.kind)]
  }

  /** The whole output, read port by port. */
  function Lines(items: seq<Item>): seq<Line> {
    if items == [] then [] else Lines(items[..|items| - 1]) + ItemLines(items[|items| - 1])
  }

  /** The ranges of the output as pairs of a key and a port. */
  ghost function RangePairs(items: seq<Item>): seq<(string, int)> {
    if items == [] then []
    else
      var last := items[|items| - 1];
      RangePairs(items[..|items| - 1]) + if last.Range? then SpanPairs(last.key, last.first, last.last) else []
  }

  /** The grouped ports as pairs of a key and a port. */
  ghost function GroupedPairs(ports: seq<Port>): seq<(string, int)> {
    if ports == [] then []
    else
      var last := ports[|ports| - 1];
      GroupedPairs(ports[..|ports| - 1]) + if Grouped(last) then [(Key(last), last.privatePort)] else []
  }

  function MappingLine(item: Item): Line {
    if item.Range? then Line("", None, 0, "")
    else Line(item.port.ip, Some(item.port.publicPort), item.port.privatePort, item.port.kind)
  }

  lemma MapConcat<S, T>(f: S -> T, a: seq<S>, b: seq<S>)
    ensures Map(f, a + b) == Map(f, a) + Map(f, b)
  {
  }

  lemma Middle<T>(a: seq<T>, x: T, b: seq<T>)
    ensures multiset(a + ([x] + b)) == multiset(a + b) + multiset{x}
  {
  }

  lemma Without<T>(s: seq<T>, i: nat)
    requires i < |s|
    ensures multiset(s) == multiset(s[..i] + s[i + 1..]) + multiset{s[i]}
  {
    assert s == s[..i] + ([s[i]] + s[i + 1..]);
    Middle(s[..i], s[i], s[i + 1..]);
  }

  lemma Cancel<T>(m: multiset<T>, n: multiset<T>, x: T)
    requires m + multiset{x} == n + multiset{x}
    ensures m == n
  {
    assert m == m + multiset{x} - multiset{x} && n == n + multiset{x} - multiset{x};
  }

  lemma MapWithout<S, T>(f: S -> T, s: seq<S>, i: nat)
    requires i < |s|
    ensures multiset(Map(f, s)) == multiset(Map(f, s[..i] + s[i + 1..])) + multiset{f(s[i])}
  {
    var m := Map(f, s);
    assert Map(f, s[..i] + s[i + 1..]) == m[..i] + m[i + 1..];
    Without(m, i);
  }

  /** Applying a function to permutations gives permutations. */
  lemma {:induction false} MapPermutes<S, T>(f: S -> T, a: seq<S>, b: seq<S>)
    requires multiset(a) == multiset(b)
    ensures multiset(Map(f, a)) == multiset(Map(f, b))
  {
    assert |multiset(a)| == |a| && |multiset(b)| == |b|;
    if a != [] {
      var n := |a| - 1;
      assert a[n] in multiset(b);
      var i :| 0 <= i < |b| && b[i] == a[n];
      var shorter, other := a[..n] + a[n + 1..], b[..i] + b[i + 1..];
      Without(a, n);
      Without(b, i);
      Cancel(multiset(shorter), multiset(other), a[n]);
      MapPermutes(f, shorter, other);
      MapWithout(f, a, n);
      MapWithout(f, b, i);
    }
  }

  lemma {:induction false} SpanCount(key: string, first: int, last: int, k: string, x: int)
    ensures multiset(SpanPairs(key, first, last))[(k, x)] == if k == key then multiset(Span(first, last))[x] else 0
    decreases last - first
  {
    if first <= last {
      SpanCount(key, first, last - 1, k, x);
    }
  }

  lemma {:induction false} RangeCount(items: seq<Item>, k: string, x: int)
    ensures multiset(RangePairs(items))[(k, x)] == multiset(Shown(items, k))[x]
  {
    if items != [] {
      var last := items[|items| - 1];
      RangeCount(items[..|items| - 1], k, x);
      if last.Range? {
        SpanCount(last.key, last.first, last.last, k, x);
      }
    }
  }

  lemma {:induction false} GroupedCount(ports: seq<Port>, k: string, x: int)
    ensures multiset(GroupedPairs(ports))[(k, x)] == multiset(Keyed(ports, k))[x]
  {
    if ports != [] {
      GroupedCount(ports[..|ports| - 1], k, x);
    }
  }

  /** The output is read from its ranges and its host mappings. */
  lemma {:induction false} LinesParts(items: seq<Item>)
    ensures multiset(Lines(items)) ==
            multiset(Map(RangeLine, RangePairs(items))) + multiset(Map(MappingLine, Mappings(items)))
  {
    if items != [] {
      var init, last := items[..|items| - 1], items[|items| - 1];
      LinesParts(init);
      if last.Range? {
        MapConcat(RangeLine, RangePairs(init), SpanPairs(last.key, last.first, last.last));
        NothingAfter(Mappings(init));
      } else {
        NothingAfter(RangePairs(init));
        MapOneMore(MappingLine, Mappings(init), last);
      }
    }
  }

  predicate NoSlashes(p: Port) {
    '/' !in p.ip && '/' !in p.kind
  }

  lemma PartsMore(ports: seq<Port>)
    requires ports != []
    ensures var init, last := ports[..|ports| - 1], ports[|ports| - 1];
            if Grouped(last) then
              && GroupedPairs(ports) == GroupedPairs(init) + [(Key(last), last.privatePort)]
              && Mapped(ports) == Mapped(init)
            else GroupedPairs(ports) == GroupedPairs(init) && Mapped(ports) == Mapped(init) + [HostMapping(last)]
  {
  }

  lemma OneMore<T>(all: seq<T>, a: seq<T>, b: seq<T>, x: T)
    requires multiset(all) == multiset(a) + multiset(b)
    ensures multiset(all + [x]) == multiset(a + [x]) + multiset(b) == multiset(a) + multiset(b + [x])
  {
  }

  /** What the ports have to read comes from the grouped ones and the host mappings. */
  lemma {:induction false} PortLinesParts(ports: seq<Port>)
    requires forall i :: 0 <= i < |ports| ==> NoSlashes(ports[i])
    ensures multiset(Map(LineOf, ports)) ==
            multiset(Map(RangeLine, GroupedPairs(ports))) + multiset(Map(MappingLine, Mapped(ports)))
  {
    if ports != [] {
      var init, last := ports[..|ports| - 1], ports[|ports| - 1];
      var pairs, mapped := GroupedPairs(init), Mapped(init);
      PortLinesParts(init);
      PartsMore(ports);
      assert ports == init + [last];
      MapOneMore(LineOf, init, last);
      OneMore(Map(LineOf, init), Map(RangeLine, pairs), Map(MappingLine, mapped), LineOf(last));
      if Grouped(last) {
        GroupedLine(last);
        MapOneMore(RangeLine, pairs, (Key(last), last.privatePort));
      } else {
        MapOneMore(MappingLine, mapped, HostMapping(last));
      }
    }
  }

  lemma GroupedLine(p: Port)
    requires NoSlashes(p) && Grouped(p)
    ensures RangeLine((Key(p), p.privatePort)) == LineOf(p)
  {
    KeyRoundTripIff(p);
  }

  lemma MapOneMore<S, T>(f: S -> T, s: seq<S>, x: S)
    ensures Map(f, s + [x]) == Map(f, s) + [f(x)]
  {
  }

  /** Read port by port, the output is the list of ports: every port with its own address, public port and protocol,
      as often as it is listed. */
  lemma ReadsBack(ports: seq<Port>, items: seq<Item>)
    requires forall i :: 0 <= i < |ports| ==> NoSlashes(ports[i])
    requires forall key :: ShownExactly(ports, items, key)
    requires multiset(Mappings(items)) == multiset(Mapped(ports))
    ensures multiset(Lines(items)) == multiset(Map(LineOf, ports))
  {
    forall pair: (string, int)
      ensures multiset(RangePairs(items))[pair] == multiset(GroupedPairs(ports))[pair]
    {
      RangeCount(items, pair.0, pair.1);
      GroupedCount(ports, pair.0, pair.1);
      assert ShownExactly(ports, items, pair.0);
    }
    assert multiset(RangePairs(items)) == multiset(GroupedPairs(ports));
    MapPermutes(RangeLine, RangePairs(items), GroupedPairs(ports));
    MapPermutes(MappingLine, Mappings(items), Mapped(ports));
    LinesParts(items);
    PortLinesParts(ports);
  }

  // ---------------------------------------------------------------------------

  lemma {:induction false} SpanOnce(first: int, last: int)
    ensures Once(Span(first, last)) && forall x :: x in Span(first, last) <==> first <= x <= last
    decreases last - first
  {
    if first <= last {
      SpanOnce(first, last - 1);
      OnceMore(Span(first, last - 1), last);
    }
  }

  lemma OnceConcat(a: seq<int>, b: seq<int>)
    requires Once(a) && Once(b) && forall x :: x in b ==> x !in a
    ensures Once(a + b)
  {
    forall x
      ensures multiset(a + b)[x] <= 1
    {
      assert multiset(a + b)[x] == multiset(a)[x] + multiset(b)[x];
      assert x in b <==> x in multiset(b);
      assert x in a <==> x in multiset(a);
    }
  }

  lemma {:induction false} ShownFrom(items: seq<Item>, key: string, x: int)
    requires x in Shown(items, key)
    ensures exists a :: 0 <= a < |items| && items[a].Range? && items[a].key == key &&
                        items[a].first <= x <= items[a].last
  {
    var init, last := items[..|items| - 1], items[|items| - 1];
    if x in Shown(init, key) {
      ShownFrom(init, key, x);
      var a :| 0 <= a < |init| && init[a].Range? && init[a].key == key && init[a].first <= x <= init[a].last;
      assert items[a] == init[a];
    } else {
      SpanOnce(last.first, last.last);
    }
  }

  /** Ranges that keep apart show no port twice. */
  lemma {:induction false} ApartOnce(items: seq<Item>, key: string)
    requires Apart(items)
    ensures Once(Shown(items, key))
  {
    if items != [] {
      var init, last := items[..|items| - 1], items[|items| - 1];
      assert forall a :: 0 <= a < |init| ==> init[a] == items[a];
      ApartOnce(init, key);
      if last.Range? && last.key == key {
        SpanOnce(last.first, last.last);
        forall x | x in Span(last.first, last.last)
          ensures x !in Shown(init, key)
        {
          if x in Shown(init, key) {
            ShownFrom(init, key, x);
          }
        }
        OnceConcat(Shown(init, key), Span(last.first, last.last));
      } else {
        NothingAfter(Shown(init, key));
      }
    }
  }

  /** Ranges keep apart only if no port is listed twice under a key. */
  lemma ApartDistinct(ports: seq<Port>, items: seq<Item>)
    requires Apart(items) && forall key :: ShownExactly(ports, items, key)
    ensures DistinctPairs(ports)
  {
    forall key
      ensures OnceUnder(ports, key)
    {
      ApartOnce(items, key);
      assert ShownExactly(ports, items, key);
    }
    OnceDistinct(ports);
  }

  /** The ranges of a key hold exactly the listed ports of that key, with multiplicity and in ascending order. */
  ghost predicate ShownExactly(ports: seq<Port>, items: seq<Item>, key: string) {
    && multiset(Shown(items, key)) == multiset(Keyed(ports, key))
    && Ascending(Shown(items, key))
  }

  /** The output for a list of ports in any order: the ranges and host mappings hold exactly the listed ports, and
      ranges of one key neither overlap nor touch exactly when no port is listed twice under a key. */
  method DisplayablePorts(ports: seq<Port>) returns (items: seq<Item>)
    ensures forall key :: ShownExactly(ports, items, key)
    ensures multiset(Mappings(items)) == multiset(Mapped(ports))
    ensures Apart(items) <==> DistinctPairs(ports)
    ensures LastInOrder(items, FirstKeys(Sort(ports)), Mapped(Sort(ports)))
    ensures Filled(items) && OnlyMoved(items)
    ensures (forall i :: 0 <= i < |ports| ==> NoSlashes(ports[i])) ==>
              multiset(Lines(items)) == multiset(Map(LineOf, ports))
  {
    SortSorts(ports);
    items := DisplaySorted(Sort(ports));
    forall key
      ensures ShownExactly(ports, items, key)
    {
      SortKeeps(ports, key);
      assert Shown(items, key) == Keyed(Sort(ports), key);
      KeyedAscending(Sort(ports), key);
    }
    SortKeeps(ports, "");
    if DistinctPairs(ports) {
      SortDistinct(ports);
    }
    if Apart(items) {
      ApartDistinct(ports, items);
    }
    if forall i :: 0 <= i < |ports| ==> NoSlashes(ports[i]) {
      ReadsBack(ports, items);
    }
  }
}
