/** Failure-carrying results shared by every module. */
module Wrappers {
  datatype Option<+T> = None | Some(value: T) {
    function GetOr(default: T): T {
      if Some? then value else default
    }
  }

  datatype Result<+T, +E> = Success(value: T) | Failure(error: E)
}

/** internal/rewrite/prefix.go, and the prefix rules of config.validate. */
module Prefix {
  import opened Wrappers

  type Uri = string

  datatype PrefixMapping = PrefixMapping(source: Uri, target: Uri) {
    predicate Matches(p: Uri) {
      source <= p
    }

    predicate UnderTarget(p: Uri) {
      target <= p
    }

    function Apply(p: Uri): Uri {
      if source <= p then target + p[|source|..] else p
    }

    /** The source URI that Apply sends to v. */
    function Unapply(v: Uri): Uri
      requires UnderTarget(v)
    {
      source + v[|target|..]
    }

    /** What the command line guarantees about the two prefixes. */
    predicate Legal() {
      && EndsWithSlash(source)
      && EndsWithSlash(target)
      && !(source <= target)
      && !(target <= source)
    }
  }

  predicate EndsWithSlash(p: Uri) {
    p != "" && p[|p| - 1] == '/'
  }

  datatype ConfigError = MissingPrefix | SamePrefix | NoTrailingSlash(prefix: Uri) | NestedPrefixes

  /** The prefix checks of config.validate, in the order it makes them. */
  function ValidatePrefixes(m: PrefixMapping): Option<ConfigError> {
    if m.source == "" || m.target == "" then Some(MissingPrefix)
    else if m.source == m.target then Some(SamePrefix)
    else if !EndsWithSlash(m.source) then Some(NoTrailingSlash(m.source))
    else if !EndsWithSlash(m.target) then Some(NoTrailingSlash(m.target))
    else if m.source <= m.target || m.target <= m.source then Some(NestedPrefixes)
    else None
  }

  /** Two prefixes of one string are nested. */
  lemma PrefixesOfOne(a: string, b: string, p: string)
    requires a <= p && b <= p
    ensures a <= b || b <= a
  {
    if |a| <= |b| {
      assert a == p[..|a|] == b[..|a|];
    } else {
      assert b == p[..|b|] == a[..|b|];
    }
  }

  /** A mapping is accepted exactly when both prefixes name a directory and no URI lies under both. */
  lemma AcceptedIffDisjoint(m: PrefixMapping)
    ensures ValidatePrefixes(m).None? <==> m.Legal()
    ensures m.Legal() <==>
            && EndsWithSlash(m.source)
            && EndsWithSlash(m.target)
            && forall p :: !(m.Matches(p) && m.UnderTarget(p))
  {
    forall p | m.Matches(p) && m.UnderTarget(p)
      ensures !m.Legal()
    {
      PrefixesOfOne(m.source, m.target, p);
    }
    if m.source <= m.target {
      assert m.Matches(m.target) && m.UnderTarget(m.target);
    }
    if m.target <= m.source {
      assert m.Matches(m.source) && m.UnderTarget(m.source);
    }
  }

  /** Under a legal mapping no URI carries both prefixes. */
  lemma NotBoth(m: PrefixMapping, p: Uri)
    requires m.Legal()
    ensures !(m.Matches(p) && m.UnderTarget(p))
  {
    AcceptedIffDisjoint(m);
  }

  /** Which rule a refused mapping breaks; the rules are tried in this order. */
  lemma RefusalNamesRule(m: PrefixMapping)
    requires ValidatePrefixes(m).Some?
    ensures match ValidatePrefixes(m).value
            case MissingPrefix => m.source == "" || m.target == ""
            case SamePrefix => m.source == m.target != ""
            case NoTrailingSlash(p) =>
              && m.source != "" && m.target != "" && m.source != m.target && p[|p| - 1..] != "/"
              && (p == m.source || (p == m.target && m.source[|m.source| - 1..] == "/"))
            case NestedPrefixes =>
              && m.source != "" && m.target != "" && m.source != m.target
              && m.source[|m.source| - 1..] == "/" && m.target[|m.target| - 1..] == "/"
              && (m.source <= m.target || m.target <= m.source)
  {
  }

  /** Apply lands under the target or leaves the URI alone, Unapply undoes it, and a second Apply does nothing. */
  lemma ApplyUnapply(m: PrefixMapping, p: Uri)
    requires m.Legal()
    ensures m.Matches(p) ==> m.UnderTarget(m.Apply(p)) && m.Apply(p) != p && m.Unapply(m.Apply(p)) == p
    ensures !m.Matches(p) ==> m.Apply(p) == p
    ensures !m.Matches(m.Apply(p))
    ensures m.Apply(m.Apply(p)) == m.Apply(p)
    ensures m.UnderTarget(p) ==> m.Matches(m.Unapply(p)) && m.Apply(m.Unapply(p)) == p
  {
    NotBoth(m, p);
    if m.Matches(p) {
      NotBoth(m, m.Apply(p));
      assert m.Apply(p)[|m.target|..] == p[|m.source|..];
      assert p == m.source + p[|m.source|..];
    }
    if m.UnderTarget(p) {
      assert m.Unapply(p)[|m.source|..] == p[|m.target|..];
      assert p == m.target + p[|m.target|..];
    }
  }

  /** Two URIs collide under Apply exactly when one is the other's target-side twin. */
  lemma CollisionsAreTwins(m: PrefixMapping, p: Uri, q: Uri)
    requires m.Legal() && p != q
    ensures m.Apply(p) == m.Apply(q) <==>
            || (m.Matches(p) && m.UnderTarget(q) && q == m.Apply(p))
            || (m.Matches(q) && m.UnderTarget(p) && p == m.Apply(q))
  {
    ApplyUnapply(m, p);
    ApplyUnapply(m, q);
  }

  /** Off the target, Apply neither merges nor separates URIs. */
  lemma ApplyInjectiveOffTarget(m: PrefixMapping, p: Uri, q: Uri)
    requires m.Legal() && !m.UnderTarget(p) && !m.UnderTarget(q)
    ensures m.Apply(p) == m.Apply(q) <==> p == q
  {
    if p != q {
      CollisionsAreTwins(m, p, q);
    }
  }

  /** A target row and its source twin are merged, so Apply is not injective on a graph holding both. */
  lemma TwinsCollide(m: PrefixMapping, x: string)
    requires m.Legal()
    ensures m.source + x != m.target + x && m.Apply(m.source + x) == m.Apply(m.target + x)
  {
    assert m.Matches(m.source + x) && (m.source + x)[|m.source|..] == x;
    NotBoth(m, m.target + x);
    assert m.UnderTarget(m.target + x);
  }
}

/** The byte order that engines use to compare file_path bounds with paths. */
module Lex {
  import opened Prefix

  predicate Leq(a: string, b: string) {
    || a == ""
    || (b != "" && (a[0] < b[0] || (a[0] == b[0] && Leq(a[1..], b[1..]))))
  }

  lemma {:induction false} LeqAntisymmetric(a: string, b: string)
    requires Leq(a, b) && Leq(b, a)
    ensures a == b
  {
    if a != "" && b != "" {
      LeqAntisymmetric(a[1..], b[1..]);
      assert a == [a[0]] + a[1..] && b == [b[0]] + b[1..];
    }
  }

  lemma {:induction false} LeqReflexive(a: string)
    ensures Leq(a, a)
  {
    if a != "" {
      LeqReflexive(a[1..]);
    }
  }

  lemma {:induction false} CommonPrefix(p: string, x: string, y: string)
    ensures Leq(p + x, p + y) <==> Leq(x, y)
  {
    if p == "" {
      assert p + x == x && p + y == y;
    } else {
      assert (p + x)[1..] == p[1..] + x && (p + y)[1..] == p[1..] + y;
      CommonPrefix(p[1..], x, y);
    }
  }

  /** Exchanging the prefix keeps the order of source URIs, in both directions. */
  lemma SwapKeepsOrder(m: PrefixMapping, p: Uri, q: Uri)
    requires m.Matches(p) && m.Matches(q)
    ensures Leq(m.Apply(p), m.Apply(q)) <==> Leq(p, q)
  {
    var x, y := p[|m.source|..], q[|m.source|..];
    assert p == m.source + x && q == m.source + y;
    CommonPrefix(m.source, x, y);
    CommonPrefix(m.target, x, y);
  }

  /** A string that does not start with t compares with every t + x as it compares with t. */
  lemma {:induction false} OffPrefix(b: string, t: string, x: string)
    requires !(t <= b)
    ensures Leq(b, t + x) <==> Leq(b, t)
    ensures Leq(t + x, b) <==> Leq(t, b)
  {
    if b != "" && t != "" {
      assert (t + x)[0] == t[0] && (t + x)[1..] == t[1..] + x;
      if b[0] == t[0] {
        assert t == [t[0]] + t[1..] && b == [b[0]] + b[1..];
        OffPrefix(b[1..], t[1..], x);
      }
    }
  }
}
