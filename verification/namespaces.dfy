/** cmd/bergrb/main.go listAllNamespaces: the breadth-first walk over a catalog's namespaces. */
module Namespaces {
  import opened Wrappers

  type Namespace = seq<string>

  /** U+001F, the separator of the REST specification. */
  const Separator: char := 31 as char

  function Join(ns: Namespace): string {
    if |ns| == 0 then ""
    else if |ns| == 1 then ns[0]
    else ns[0] + [Separator] + Join(ns[1..])
  }

  /** The pieces of a string between separators. */
  function Split(e: string): (r: seq<string>)
    ensures r != []
  {
    if e == "" then [""]
    else if e[0] == Separator then [""] + Split(e[1..])
    else var rest := Split(e[1..]); [[e[0]] + rest[0]] + rest[1..]
  }

  function Pieces(ns: Namespace): seq<string> {
    if ns == [] then [] else Split(ns[0]) + Pieces(ns[1..])
  }

  /** What the key retains of a namespace: its elements taken apart at the separator, one empty piece if it has none. */
  function Parts(ns: Namespace): seq<string> {
    if ns == [] then [""] else Pieces(ns)
  }

  lemma {:induction false} SplitConcat(a: string, b: string)
    ensures Split(a + [Separator] + b) == Split(a) + Split(b)
  {
    var s := a + [Separator] + b;
    if a == "" {
      assert s == [Separator] + b && s[1..] == b;
    } else {
      assert s[0] == a[0] && s[1..] == a[1..] + [Separator] + b;
      SplitConcat(a[1..], b);
    }
  }

  lemma {:induction false} PartsOfKey(ns: Namespace)
    ensures Parts(ns) == Split(Join(ns))
  {
    if |ns| == 1 {
      assert Pieces(ns[1..]) == [];
      assert Pieces(ns) == Split(ns[0]) + [] == Split(ns[0]);
    } else if |ns| > 1 {
      PartsOfKey(ns[1..]);
      SplitConcat(ns[0], Join(ns[1..]));
    }
  }

  lemma {:induction false} SplitJoins(s: string)
    ensures Join(Split(s)) == s
  {
    if s != "" {
      var rest := Split(s[1..]);
      SplitJoins(s[1..]);
      if s[0] == Separator {
        assert Split(s)[1..] == rest;
        assert Join(Split(s)) == "" + [Separator] + Join(rest);
      } else {
        assert Split(s)[0] == [s[0]] + rest[0] && Split(s)[1..] == rest[1..];
        assert [s[0]] + s[1..] == s;
      }
    }
  }

  /** Exactly when two namespaces share a visited key: taken apart at the separator they are the same. */
  lemma SameKeyIff(a: Namespace, b: Namespace)
    ensures Join(a) == Join(b) <==> Parts(a) == Parts(b)
  {
    PartsOfKey(a);
    PartsOfKey(b);
    SplitJoins(Join(a));
    SplitJoins(Join(b));
  }

  /** A namespace as the REST specification allows it: at least one element, none with the separator in it. */
  predicate Legal(ns: Namespace) {
    ns != [] && forall e | e in ns :: Separator !in e
  }

  lemma {:induction false} SplitWhole(e: string)
    requires Separator !in e
    ensures Split(e) == [e]
  {
    if e != "" {
      SplitWhole(e[1..]);
      assert [e[0]] + e[1..] == e;
    }
  }

  lemma {:induction false} LegalPieces(ns: Namespace)
    requires forall e | e in ns :: Separator !in e
    ensures Pieces(ns) == ns
  {
    if ns != [] {
      assert ns[0] in ns && forall e | e in ns[1..] :: e in ns;
      SplitWhole(ns[0]);
      LegalPieces(ns[1..]);
    }
  }

  /** The visited key identifies a legal namespace. */
  lemma JoinInjective(a: Namespace, b: Namespace)
    requires Legal(a) && Legal(b) && Join(a) == Join(b)
    ensures a == b
  {
    SameKeyIff(a, b);
    LegalPieces(a);
    LegalPieces(b);
  }

  /** The separator is U+001F, so unlike with a dot, "a.b" and "a" over "b" differ. */
  lemma KeyOfTwo(a: string, b: string)
    ensures Join([a, b]) == a + "\U{1F}" + b
    ensures Join(["a.b"]) != Join(["a", "b"])
  {
    assert [a, b][1..] == [b] && ["a", "b"][1..] == ["b"];
    assert "a.b"[1] == '.' && Join(["a", "b"])[1] == Separator;
  }

  /** Off the legal names two namespaces can share a key. */
  lemma JoinCollides()
    ensures Join([]) == Join([""])
    ensures Join([["\U{1F}"[0]]]) == Join(["", ""])
  {
    assert Join(["", ""]) == "" + [Separator] + Join([""]);
  }

  /** ListNamespaces: the immediate children, or a failure; the empty namespace lists the roots. */
  type Lister = Namespace -> Option<seq<Namespace>>

  predicate Lists(l: Lister, parent: Namespace, child: Namespace) {
    l(parent).Some? && child in l(parent).value
  }

  /** ns is reached from a root in n steps down. */
  ghost predicate AtDepth(l: Lister, ns: Namespace, n: nat)
    decreases n
  {
    if n == 0 then Lists(l, [], ns) else exists p :: AtDepth(l, p, n - 1) && Lists(l, p, ns)
  }

  ghost predicate Reachable(l: Lister, ns: Namespace) {
    exists n :: AtDepth(l, ns, n)
  }

  ghost predicate IsDistance(l: Lister, ns: Namespace, d: nat) {
    AtDepth(l, ns, d) && forall n | AtDepth(l, ns, n) :: d <= n
  }

  /** A finite set of namespaces that holds everything listed. */
  ghost predicate Closed(l: Lister, universe: set<Namespace>) {
    && (forall c | Lists(l, [], c) :: c in universe)
    && (forall p, c | p in universe && Lists(l, p, c) :: c in universe)
  }

  /** No two reachable namespaces are the same when taken apart at the separator. */
  ghost predicate NoneCollide(l: Lister) {
    forall a, b | Reachable(l, a) && Reachable(l, b) && a != b :: Parts(a) != Parts(b)
  }

  ghost predicate Sorted(ds: seq<nat>) {
    forall i, j | 0 <= i < j < |ds| :: ds[i] <= ds[j]
  }

  /** c has been returned, or waits in the queue at a depth of at most n. */
  ghost predicate Pending(c: Namespace, n: nat, all: seq<Namespace>, queue: seq<Namespace>, qd: seq<nat>)
    requires |qd| == |queue|
  {
    c in all || exists j | 0 <= j < |queue| :: queue[j] == c && qd[j] <= n
  }

  /** The loop invariant; ad and qd are the depths of the returned and of the queued namespaces. */
  ghost predicate Walking(l: Lister, universe: set<Namespace>, all: seq<Namespace>, ad: seq<nat>,
                          queue: seq<Namespace>, qd: seq<nat>)
  {
    && |ad| == |all| && |qd| == |queue|
    && (forall i, j | 0 <= i < j < |all| :: all[i] != all[j])
    && (forall ns | ns in all || ns in queue :: ns in universe)
    && (forall i | 0 <= i < |all| :: IsDistance(l, all[i], ad[i]) && l(all[i]).Some?)
    && (forall j | 0 <= j < |queue| :: AtDepth(l, queue[j], qd[j]))
    && Sorted(ad) && Sorted(qd)
    && (qd != [] ==> forall i | 0 <= i < |ad| :: ad[i] <= qd[0])
    && (forall j | 0 <= j < |qd| :: qd[j] <= qd[0] + 1)
    && (forall c | Lists(l, [], c) :: Pending(c, 0, all, queue, qd))
    && (forall i, c | 0 <= i < |all| && Lists(l, all[i], c) :: Pending(c, ad[i] + 1, all, queue, qd))
  }

  /** Everything reachable in n steps is returned, unless something waits at a depth of at most n. */
  lemma {:induction false} Frontier(l: Lister, universe: set<Namespace>, all: seq<Namespace>, ad: seq<nat>,
                                    queue: seq<Namespace>, qd: seq<nat>, ns: Namespace, n: nat)
    requires Walking(l, universe, all, ad, queue, qd) && AtDepth(l, ns, n)
    ensures ns in all || exists j | 0 <= j < |qd| :: qd[j] <= n
    decreases n
  {
    if n == 0 {
      assert Pending(ns, 0, all, queue, qd);
    } else {
      var p :| AtDepth(l, p, n - 1) && Lists(l, p, ns);
      Frontier(l, universe, all, ad, queue, qd, p, n - 1);
      if p in all {
        var i :| 0 <= i < |all| && all[i] == p;
        assert IsDistance(l, all[i], ad[i]);
        assert Pending(ns, ad[i] + 1, all, queue, qd);
      }
    }
  }

  /** The front of the queue, if not returned yet, is at its true distance. */
  lemma FrontIsNearest(l: Lister, universe: set<Namespace>, all: seq<Namespace>, ad: seq<nat>,
                       queue: seq<Namespace>, qd: seq<nat>)
    requires Walking(l, universe, all, ad, queue, qd) && queue != [] && queue[0] !in all
    ensures IsDistance(l, queue[0], qd[0])
  {
    forall n: nat | AtDepth(l, queue[0], n) ensures qd[0] <= n {
      Frontier(l, universe, all, ad, queue, qd, queue[0], n);
    }
  }

  /** A namespace met before is skipped. */
  lemma SkipKeeps(l: Lister, universe: set<Namespace>, all: seq<Namespace>, ad: seq<nat>,
                  queue: seq<Namespace>, qd: seq<nat>)
    requires Walking(l, universe, all, ad, queue, qd) && queue != [] && queue[0] in all
    ensures Walking(l, universe, all, ad, queue[1..], qd[1..])
  {
    var rest, rd := queue[1..], qd[1..];
    forall c, n: nat | Pending(c, n, all, queue, qd) ensures Pending(c, n, all, rest, rd) {
      PendingDropped(c, n, all, queue, qd);
    }
    assert forall ns | ns in rest :: ns in queue;
  }

  lemma PendingDropped(c: Namespace, n: nat, all: seq<Namespace>, queue: seq<Namespace>, qd: seq<nat>)
    requires |qd| == |queue| && queue != [] && Pending(c, n, all, queue, qd)
    ensures c == queue[0] || Pending(c, n, all, queue[1..], qd[1..])
  {
    if c !in all && c != queue[0] {
      var j :| 0 <= j < |queue| && queue[j] == c && qd[j] <= n;
      assert queue[1..][j - 1] == c && qd[1..][j - 1] == qd[j];
    }
  }

  lemma PendingGrows(c: Namespace, n: nat, all: seq<Namespace>, more: seq<Namespace>,
                     queue: seq<Namespace>, qd: seq<nat>, children: seq<Namespace>, cd: seq<nat>)
    requires |qd| == |queue| && |cd| == |children| && Pending(c, n, all, queue, qd)
    ensures Pending(c, n, all + more, queue + children, qd + cd)
  {
    if c !in all {
      var j :| 0 <= j < |queue| && queue[j] == c && qd[j] <= n;
      assert (queue + children)[j] == c && (qd + cd)[j] == qd[j];
    }
  }

  /** The state after a new namespace is returned and its children are queued one level deeper. */
  lemma VisitKeeps(l: Lister, universe: set<Namespace>, all: seq<Namespace>, ad: seq<nat>,
                   queue: seq<Namespace>, qd: seq<nat>, children: seq<Namespace>, cd: seq<nat>)
    requires Closed(l, universe)
    requires Walking(l, universe, all, ad, queue, qd) && queue != [] && queue[0] !in all
    requires l(queue[0]) == Some(children)
    requires |cd| == |children| && forall i | 0 <= i < |cd| :: cd[i] == qd[0] + 1
    ensures Walking(l, universe, all + [queue[0]], ad + [qd[0]], queue[1..] + children, qd[1..] + cd)
  {
    FrontIsNearest(l, universe, all, ad, queue, qd);
    hide IsDistance, Join;
    var ns, d := queue[0], qd[0];
    var all', ad', queue', qd' := all + [ns], ad + [d], queue[1..] + children, qd[1..] + cd;
    assert ns in queue;
    forall j | 0 <= j < |children| ensures AtDepth(l, children[j], cd[j]) && children[j] in universe {
      assert Lists(l, ns, children[j]);
    }
    hide AtDepth, Closed;
    forall x | x in all' || x in queue' ensures x in universe {
      if x in queue[1..] {
        assert x in queue;
      }
    }
    forall c | Lists(l, [], c) ensures Pending(c, 0, all', queue', qd') {
      VisitPending(c, 0, all, queue, qd, children, cd);
    }
    forall i, c | 0 <= i < |all'| && Lists(l, all'[i], c) ensures Pending(c, ad'[i] + 1, all', queue', qd') {
      if i == |all| {
        var j :| 0 <= j < |children| && children[j] == c;
        assert queue'[|queue[1..]| + j] == c && qd'[|queue[1..]| + j] == d + 1;
      } else {
        VisitPending(c, ad[i] + 1, all, queue, qd, children, cd);
      }
    }
  }

  lemma VisitPending(c: Namespace, n: nat, all: seq<Namespace>, queue: seq<Namespace>, qd: seq<nat>,
                     children: seq<Namespace>, cd: seq<nat>)
    requires |qd| == |queue| && |cd| == |children| && queue != [] && Pending(c, n, all, queue, qd)
    ensures Pending(c, n, all + [queue[0]], queue[1..] + children, qd[1..] + cd)
  {
    PendingDropped(c, n, all, queue, qd);
    if c != queue[0] {
      PendingGrows(c, n, all, [queue[0]], queue[1..], qd[1..], children, cd);
    }
  }

  /** What holds at every point of the walk, whether or not keys collide: everything met is reachable, and the keys of
      what has been returned are distinct. */
  ghost predicate Met(l: Lister, universe: set<Namespace>, all: seq<Namespace>, queue: seq<Namespace>) {
    && (forall ns | ns in all || ns in queue :: ns in universe && Reachable(l, ns))
    && (forall ns | ns in all :: l(ns).Some?)
    && (forall i, j | 0 <= i < j < |all| :: Join(all[i]) != Join(all[j]))
  }

  lemma ChildrenReachable(l: Lister, parent: Namespace, children: seq<Namespace>)
    requires Reachable(l, parent) && l(parent) == Some(children)
    ensures forall c | c in children :: Reachable(l, c)
  {
    var n: nat :| AtDepth(l, parent, n);
    forall c | c in children ensures AtDepth(l, c, n + 1) {
      assert Lists(l, parent, c);
    }
  }

  lemma VisitMeets(l: Lister, universe: set<Namespace>, all: seq<Namespace>, queue: seq<Namespace>, children: seq<Namespace>)
    requires Closed(l, universe) && Met(l, universe, all, queue) && queue != []
    requires l(queue[0]) == Some(children) && forall x | x in all :: Join(x) != Join(queue[0])
    ensures Met(l, universe, all + [queue[0]], queue[1..] + children)
  {
    var ns := queue[0];
    assert ns in queue && forall x | x in queue[1..] :: x in queue;
    ChildrenReachable(l, ns, children);
    forall c | c in children ensures c in universe {
      assert Lists(l, ns, c);
    }
    hide Reachable, Closed, Join;
    forall i, j | 0 <= i < j < |all + [ns]| ensures Join((all + [ns])[i]) != Join((all + [ns])[j]) {
      assert all[i] in all;
    }
  }

  /** The loop invariant; without collisions the stronger one holds too. */
  ghost predicate Progress(l: Lister, universe: set<Namespace>, all: seq<Namespace>, ad: seq<nat>,
                           queue: seq<Namespace>, qd: seq<nat>)
  {
    && |qd| == |queue| && Met(l, universe, all, queue)
    && (NoneCollide(l) ==> Walking(l, universe, all, ad, queue, qd))
  }

  /** A key that was visited is skipped. */
  lemma SkipStep(l: Lister, universe: set<Namespace>, all: seq<Namespace>, ad: seq<nat>,
                 queue: seq<Namespace>, qd: seq<nat>)
    requires Progress(l, universe, all, ad, queue, qd) && queue != []
    requires exists x | x in all :: Join(x) == Join(queue[0])
    ensures Progress(l, universe, all, ad, queue[1..], qd[1..])
  {
    hide Walking, Reachable, Join;
    assert forall x | x in queue[1..] :: x in queue;
    if NoneCollide(l) {
      var x :| x in all && Join(x) == Join(queue[0]);
      assert queue[0] in queue;
      SameKeyIff(x, queue[0]);
      SkipKeeps(l, universe, all, ad, queue, qd);
    }
  }

  lemma VisitStep(l: Lister, universe: set<Namespace>, all: seq<Namespace>, ad: seq<nat>,
                  queue: seq<Namespace>, qd: seq<nat>, children: seq<Namespace>, cd: seq<nat>)
    requires Closed(l, universe) && Progress(l, universe, all, ad, queue, qd) && queue != []
    requires l(queue[0]) == Some(children) && forall x | x in all :: Join(x) != Join(queue[0])
    requires |cd| == |children| && forall i | 0 <= i < |cd| :: cd[i] == qd[0] + 1
    ensures Progress(l, universe, all + [queue[0]], ad + [qd[0]], queue[1..] + children, qd[1..] + cd)
  {
    VisitMeets(l, universe, all, queue, children);
    hide Met, NoneCollide, Walking, Closed, Join;
    if NoneCollide(l) {
      VisitKeeps(l, universe, all, ad, queue, qd, children, cd);
    }
  }

  /** listAllNamespaces. On any finite graph, cycles and duplicates included, the loop ends. What it returns is reachable
      and has distinct keys. It returns all that is reachable exactly when no two reachable namespaces share a key; then
      each comes once, in order of non-decreasing distance, and the walk fails exactly when a listing fails. */
  method ListAllNamespaces(l: Lister, ghost universe: set<Namespace>)
    returns (r: Option<seq<Namespace>>, ghost distances: seq<nat>)
    requires Closed(l, universe)
    ensures r.None? ==> l([]).None? || exists ns :: Reachable(l, ns) && l(ns).None?
    ensures r.Some? ==> l([]).Some? && forall ns | ns in r.value :: Reachable(l, ns) && l(ns).Some?
    ensures r.Some? ==> forall i, j | 0 <= i < j < |r.value| :: Parts(r.value[i]) != Parts(r.value[j])
    ensures r.Some? ==> ((forall ns :: ns in r.value <==> Reachable(l, ns)) <==> NoneCollide(l))
    ensures NoneCollide(l) ==> (r.None? <==> l([]).None? || exists ns :: Reachable(l, ns) && l(ns).None?)
    ensures NoneCollide(l) && r.Some? ==> |distances| == |r.value| && Sorted(distances)
    ensures NoneCollide(l) && r.Some? ==> forall i | 0 <= i < |r.value| :: IsDistance(l, r.value[i], distances[i])
  {
    distances := [];
    hide Progress, Join, Closed, IsDistance, NoneCollide, Reachable, Parts;
    var roots := l([]);
    if roots.None? {
      return None, [];
    }
    var all: seq<Namespace> := [];
    var visited: set<string> := {};
    var queue := roots.value;
    ghost var qd := seq(|queue|, i => 0);
    ghost var unseen := universe;
    StartWalk(l, universe, queue, qd);
    while queue != []
      invariant |qd| == |queue| && Progress(l, universe, all, distances, queue, qd)
      invariant visited == (set ns | ns in all :: Join(ns))
      invariant unseen == universe - (set ns | ns in all)
      decreases unseen, |queue|
    {
      var ns := queue[0];
      var key := Join(ns);
      if key in visited {
        SkipStep(l, universe, all, distances, queue, qd);
        queue, qd := queue[1..], qd[1..];
        continue;
      }
      visited := visited + {key};
      FrontReachable(l, universe, all, distances, queue, qd);
      var children := l(ns);
      if children.None? {
        return None, distances;
      }
      ghost var cd := seq(|children.value|, i => qd[0] + 1);
      VisitStep(l, universe, all, distances, queue, qd, children.value, cd);
      assert ns in unseen;
      unseen := unseen - {ns};
      all, distances := all + [ns], distances + [qd[0]];
      queue, qd := queue[1..] + children.value, qd[1..] + cd;
    }
    EndWalk(l, universe, all, distances, qd);
    return Some(all), distances;
  }

  lemma FrontReachable(l: Lister, universe: set<Namespace>, all: seq<Namespace>, ad: seq<nat>,
                       queue: seq<Namespace>, qd: seq<nat>)
    requires Progress(l, universe, all, ad, queue, qd) && queue != []
    ensures queue[0] in universe && Reachable(l, queue[0])
  {
    hide Walking, NoneCollide, Reachable;
    assert queue[0] in queue;
  }

  lemma DistinctKeys(l: Lister, universe: set<Namespace>, all: seq<Namespace>)
    requires Met(l, universe, all, [])
    ensures forall ns | ns in all :: Reachable(l, ns) && l(ns).Some?
    ensures forall i, j | 0 <= i < j < |all| :: Parts(all[i]) != Parts(all[j])
    ensures (forall ns :: Reachable(l, ns) ==> ns in all) ==> NoneCollide(l)
  {
    forall i, j | 0 <= i < j < |all| ensures Parts(all[i]) != Parts(all[j]) {
      SameKeyIff(all[i], all[j]);
    }
    if forall ns :: Reachable(l, ns) ==> ns in all {
      forall a, b | Reachable(l, a) && Reachable(l, b) && a != b ensures Parts(a) != Parts(b) {
        var i :| 0 <= i < |all| && all[i] == a;
        var j :| 0 <= j < |all| && all[j] == b;
        if i < j {
          assert Parts(all[i]) != Parts(all[j]);
        } else {
          assert Parts(all[j]) != Parts(all[i]);
        }
      }
    }
  }

  lemma StartWalk(l: Lister, universe: set<Namespace>, queue: seq<Namespace>, qd: seq<nat>)
    requires Closed(l, universe) && l([]) == Some(queue) && |qd| == |queue| && forall i | 0 <= i < |qd| :: qd[i] == 0
    ensures Progress(l, universe, [], [], queue, qd)
  {
    forall j | 0 <= j < |queue| ensures AtDepth(l, queue[j], 0) && queue[j] in universe {
      assert Lists(l, [], queue[j]);
    }
    forall c | Lists(l, [], c) ensures Pending(c, 0, [], queue, qd) {
      var j :| 0 <= j < |queue| && queue[j] == c;
    }
  }

  lemma AllFound(l: Lister, universe: set<Namespace>, all: seq<Namespace>, ad: seq<nat>)
    requires Walking(l, universe, all, ad, [], [])
    ensures forall ns | Reachable(l, ns) :: ns in all
    ensures |ad| == |all| && Sorted(ad) && forall i | 0 <= i < |all| :: IsDistance(l, all[i], ad[i])
  {
    forall ns | Reachable(l, ns) ensures ns in all {
      var n: nat :| AtDepth(l, ns, n);
      Frontier(l, universe, all, ad, [], [], ns, n);
    }
  }

  lemma EndWalk(l: Lister, universe: set<Namespace>, all: seq<Namespace>, ad: seq<nat>, qd: seq<nat>)
    requires Progress(l, universe, all, ad, [], qd)
    ensures forall ns | ns in all :: Reachable(l, ns) && l(ns).Some?
    ensures forall i, j | 0 <= i < j < |all| :: Parts(all[i]) != Parts(all[j])
    ensures (forall ns :: ns in all <==> Reachable(l, ns)) <==> NoneCollide(l)
    ensures NoneCollide(l) ==> !exists ns :: Reachable(l, ns) && l(ns).None?
    ensures NoneCollide(l) ==> |ad| == |all| && Sorted(ad) && forall i | 0 <= i < |all| :: IsDistance(l, all[i], ad[i])
  {
    hide Reachable, NoneCollide, Walking, Sorted, IsDistance, Parts;
    DistinctKeys(l, universe, all);
    if NoneCollide(l) {
      AllFound(l, universe, all, ad);
    }
  }

  // A namespace that is dropped.

  const Spliced: Namespace := [['a', Separator, 'b']]
  const Nested: Namespace := ["a", "b"]

  /** A catalog that lists a namespace with the separator in its name beside a nested one. */
  function TwoRoots(): Lister {
    (ns: Namespace) => Some(if ns == [] then [Spliced, Nested] else [])
  }

  lemma SplicedCollides()
    ensures Spliced != Nested && Parts(Spliced) == Parts(Nested)
    ensures Reachable(TwoRoots(), Spliced) && Reachable(TwoRoots(), Nested)
  {
    var a, b: string := "a", "b";
    assert a + [Separator] + b == Spliced[0];
    assert Join(Nested[1..]) == b && Join(Nested) == a + [Separator] + b;
    SameKeyIff(Spliced, Nested);
    assert Lists(TwoRoots(), [], Spliced) && Lists(TwoRoots(), [], Nested);
    assert AtDepth(TwoRoots(), Spliced, 0) && AtDepth(TwoRoots(), Nested, 0);
  }

  /** Both are reachable and every listing succeeds, yet the walk returns only one of them. */
  method DropsNamespace() returns (all: seq<Namespace>)
    ensures Reachable(TwoRoots(), Spliced) && Reachable(TwoRoots(), Nested)
    ensures !(Spliced in all && Nested in all)
  {
    SplicedCollides();
    ghost var universe := {Spliced, Nested};
    var r, _ := ListAllNamespaces(TwoRoots(), universe);
    all := r.value;
    OneOfThem(all);
  }

  lemma OneOfThem(all: seq<Namespace>)
    requires forall i, j | 0 <= i < j < |all| :: Parts(all[i]) != Parts(all[j])
    ensures !(Spliced in all && Nested in all)
  {
    SplicedCollides();
    hide Parts;
  }
}
