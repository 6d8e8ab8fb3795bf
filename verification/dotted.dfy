/** Dotted paths: splitting at dots, joining with dots, and when two paths conflict. */
module Dotted {
  predicate DotFree(s: string) { '.' !in s }

  ghost predicate AllDotFree(parts: seq<string>) { forall i :: 0 <= i < |parts| ==> DotFree(parts[i]) }

  /** The position of the first dot, or |s|. */
  function Dot(s: string): (i: nat)
    ensures i <= |s| && '.' !in s[..i]
    ensures i < |s| ==> s[i] == '.'
  {
    if s == "" || s[0] == '.' then 0 else 1 + Dot(s[1..])
  }

  function Split(s: string): (parts: seq<string>)
    ensures parts != []
    decreases |s|
  {
    var i := Dot(s);
    if i == |s| then [s] else [s[..i]] + Split(s[i + 1..])
  }

  function Join(parts: seq<string>): string
    requires parts != []
  {
    if |parts| == 1 then parts[0] else parts[0] + "." + Join(parts[1..])
  }

  lemma {:induction false} DotAt(head: string, rest: string)
    requires DotFree(head)
    ensures Dot(head) == |head| && Dot(head + "." + rest) == |head|
  {
    if head != "" {
      assert head[0] != '.';
      assert (head + "." + rest)[1..] == head[1..] + "." + rest;
      DotAt(head[1..], rest);
    }
  }

  /** Splitting undoes joining, for dot-free parts. */
  lemma {:induction false} SplitJoin(parts: seq<string>)
    requires parts != [] && AllDotFree(parts)
    ensures Split(Join(parts)) == parts
  {
    DotAt(parts[0], "");
    if |parts| > 1 {
      var rest := Join(parts[1..]);
      DotAt(parts[0], rest);
      var s := parts[0] + "." + rest;
      assert s[..|parts[0]|] == parts[0] && s[|parts[0]| + 1..] == rest;
      SplitJoin(parts[1..]);
    }
  }

  /** Joining undoes splitting, and what splitting yields is dot-free. */
  lemma {:induction false} JoinSplit(s: string)
    ensures Join(Split(s)) == s && AllDotFree(Split(s))
    decreases |s|
  {
    var i := Dot(s);
    if i < |s| {
      JoinSplit(s[i + 1..]);
      assert s == s[..i] + "." + s[i + 1..];
      assert Split(s)[1..] == Split(s[i + 1..]);
    } else {
      assert s[..i] == s;
    }
  }

  /** A dot always separates. */
  lemma {:induction false} SplitAtDot(a: string, b: string)
    ensures Split(a + "." + b) == Split(a) + Split(b)
    decreases |a|
  {
    hide Dot;
    var i := Dot(a);
    var s := a + "." + b;
    if i == |a| {
      assert a[..i] == a;
      DotAt(a, b);
      assert s[..i] == a && s[i + 1..] == b;
    } else {
      var rest := a[i + 1..] + "." + b;
      assert s == a[..i] + "." + rest;
      DotAt(a[..i], rest);
      assert s[..i] == a[..i] && s[i + 1..] == rest;
      SplitAtDot(a[i + 1..], b);
    }
  }

  /** Two update paths conflict when one is the other, or a dotted prefix of it. */
  predicate Conflict(a: string, b: string) {
    a == b || a + "." <= b || b + "." <= a
  }

  lemma {:induction false} JoinConcat(p: seq<string>, q: seq<string>)
    requires p != [] && q != []
    ensures Join(p + q) == Join(p) + "." + Join(q)
  {
    if |p| == 1 {
      assert (p + q)[1..] == q;
    } else {
      assert (p + q)[1..] == p[1..] + q;
      JoinConcat(p[1..], q);
    }
  }

  lemma PrefixConflict(p: seq<string>, q: seq<string>)
    requires p != [] && q != [] && (p <= q || q <= p)
    ensures Conflict(Join(p), Join(q)) && Conflict(Join(q), Join(p))
  {
    hide Join;
    if p < q {
      assert q == p + q[|p|..];
      JoinConcat(p, q[|p|..]);
    } else if q < p {
      assert p == q + p[|q|..];
      JoinConcat(q, p[|q|..]);
    } else {
      assert p == q;
    }
  }

  lemma ConflictMeansPrefix(p: seq<string>, q: seq<string>)
    requires p != [] && q != [] && AllDotFree(p) && AllDotFree(q) && Conflict(Join(p), Join(q))
    ensures p <= q || q <= p
  {
    hide Split, Join;
    SplitJoin(p);
    SplitJoin(q);
    var a, b := Join(p), Join(q);
    if a + "." <= b {
      assert b == a + "." + b[|a| + 1..];
      SplitAtDot(a, b[|a| + 1..]);
    } else if b + "." <= a {
      assert a == b + "." + a[|b| + 1..];
      SplitAtDot(b, a[|b| + 1..]);
    }
  }

  /** In terms of the parts: two paths conflict exactly when one is a prefix of the other. */
  lemma ConflictIsPrefix(p: seq<string>, q: seq<string>)
    requires p != [] && q != [] && AllDotFree(p) && AllDotFree(q)
    ensures Conflict(Join(p), Join(q)) <==> p <= q || q <= p
    ensures Conflict(Join(q), Join(p)) <==> p <= q || q <= p
  {
    hide Conflict, Join;
    if p <= q || q <= p {
      PrefixConflict(p, q);
    }
    if Conflict(Join(p), Join(q)) { ConflictMeansPrefix(p, q); }
    if Conflict(Join(q), Join(p)) { ConflictMeansPrefix(q, p); }
  }

  lemma JoinInjective(p: seq<string>, q: seq<string>)
    requires p != [] && q != [] && AllDotFree(p) && AllDotFree(q) && Join(p) == Join(q)
    ensures p == q
  {
    SplitJoin(p);
    SplitJoin(q);
  }

  lemma {:induction false} JoinSnoc(p: seq<string>, key: string)
    requires p != []
    ensures Join(p + [key]) == Join(p) + "." + key
  {
    if |p| == 1 {
      assert (p + [key])[1..] == [key];
    } else {
      assert (p + [key])[1..] == p[1..] + [key];
      JoinSnoc(p[1..], key);
    }
  }
}
