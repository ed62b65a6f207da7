/** Strings as the registry, the network gate and the manifest reader use them: order, trimming, case. */
module Text {
  import opened Wrappers

  // ----- order -----

  /** Lexicographic order on characters, which is the order of `String::cmp`. */
  predicate Less(a: string, b: string) {
    b != [] && (a == [] || a[0] < b[0] || (a[0] == b[0] && Less(a[1..], b[1..])))
  }

  lemma {:induction false} LessTotal(a: string, b: string)
    ensures Less(a, b) || a == b || Less(b, a)
  {
    if a != [] && b != [] && a[0] == b[0] {
      LessTotal(a[1..], b[1..]);
      assert a == [a[0]] + a[1..] && b == [b[0]] + b[1..];
    }
  }

  lemma {:induction false} LessTransitive(a: string, b: string, c: string)
    requires Less(a, b) && Less(b, c)
    ensures Less(a, c)
  {
    if a != [] && a[0] == b[0] && b[0] == c[0] { LessTransitive(a[1..], b[1..], c[1..]); }
  }

  lemma {:induction false} LessIrreflexive(a: string)
    ensures !Less(a, a)
  {
    if a != [] { LessIrreflexive(a[1..]); }
  }

  /** The order, at the first difference: one string ends there, or has the smaller character. */
  ghost predicate DiffersBelow(a: string, b: string, k: nat) {
    k <= |a| && k < |b| && a[..k] == b[..k] && (k == |a| || a[k] < b[k])
  }

  lemma {:induction false} LessExactly(a: string, b: string)
    ensures Less(a, b) <==> exists k: nat :: DiffersBelow(a, b, k)
  {
    if a == [] || b == [] || a[0] != b[0] {
      if b != [] && (a == [] || a[0] < b[0]) { assert DiffersBelow(a, b, 0); }
      if k: nat :| DiffersBelow(a, b, k) && k > 0 { assert a[..k][0] == b[..k][0]; }
    } else {
      LessExactly(a[1..], b[1..]);
      if k: nat :| DiffersBelow(a[1..], b[1..], k) {
        assert a[..k + 1] == [a[0]] + a[1..][..k] && b[..k + 1] == [b[0]] + b[1..][..k];
        assert DiffersBelow(a, b, k + 1);
      }
      if k: nat :| DiffersBelow(a, b, k) {
        assert k > 0;
        assert a[1..][..k - 1] == a[..k][1..] && b[1..][..k - 1] == b[..k][1..];
        assert DiffersBelow(a[1..], b[1..], k - 1);
      }
    }
  }

  ghost predicate Least(m: string, ids: set<string>) {
    m in ids && forall x | x in ids && x != m :: Less(m, x)
  }

  lemma {:induction false} LeastExists(ids: set<string>)
    requires ids != {}
    ensures exists m :: Least(m, ids)
    decreases |ids|
  {
    var x :| x in ids;
    var rest := ids - {x};
    if rest == {} {
      assert ids == {x};
      assert Least(x, ids);
    } else {
      LeastExists(rest);
      var m :| Least(m, rest);
      LessTotal(m, x);
      if Less(m, x) { assert Least(m, ids); }
      else {
        forall y | y in ids && y != x ensures Less(x, y) { if y != m { LessTransitive(x, m, y); } }
        assert Least(x, ids);
      }
    }
  }

  ghost predicate Ascending(s: seq<string>) {
    forall i, j | 0 <= i < j < |s| :: Less(s[i], s[j])
  }

  /** The elements in ascending order. */
  ghost function SortedIds(ids: set<string>): (s: seq<string>)
    ensures Ascending(s)
    ensures forall x :: x in s <==> x in ids
    ensures |s| == |ids|
    decreases |ids|
  {
    if ids == {} then [] else
      LeastExists(ids);
      var m :| Least(m, ids);
      var rest := SortedIds(ids - {m});
      AscendingFirst(m, ids, rest);
      [m] + rest
  }

  lemma AscendingFirst(m: string, ids: set<string>, rest: seq<string>)
    requires Least(m, ids) && Ascending(rest) && forall x | x in rest :: x in ids && x != m
    ensures Ascending([m] + rest)
  {
    hide Less;
    var all := [m] + rest;
    forall i, j | 0 <= i < j < |all| ensures Less(all[i], all[j]) {
      assert all[j] == rest[j - 1] && rest[j - 1] in rest;
      if i > 0 { assert all[i] == rest[i - 1]; }
    }
  }

  /** An ascending sequence is determined by its elements. */
  lemma {:induction false} AscendingUnique(a: seq<string>, b: seq<string>)
    requires Ascending(a) && Ascending(b) && forall x :: x in a <==> x in b
    ensures a == b
  {
    if a == [] || b == [] {
      if a != [] { SameNonempty(a, b); }
      if b != [] { SameNonempty(b, a); }
    } else {
      SameHead(a, b);
      forall x ensures x in a[1..] <==> x in b[1..] {
        LessIrreflexive(a[0]);
        assert x in a <==> x == a[0] || x in a[1..];
        assert x in b <==> x == b[0] || x in b[1..];
      }
      AscendingUnique(a[1..], b[1..]);
      assert a == [a[0]] + a[1..] && b == [b[0]] + b[1..];
    }
  }

  lemma SameNonempty(a: seq<string>, b: seq<string>)
    requires a != [] && forall x :: x in a <==> x in b
    ensures b != []
  {
    assert a[0] in b;
  }

  lemma SameHead(a: seq<string>, b: seq<string>)
    requires Ascending(a) && Ascending(b) && a != [] && b != [] && forall x :: x in a <==> x in b
    ensures a[0] == b[0]
  {
    assert a[0] in b && b[0] in a;
    var i :| 0 <= i < |b| && b[i] == a[0];
    var j :| 0 <= j < |a| && a[j] == b[0];
    if i > 0 && j > 0 {
      assert Less(b[0], b[i]) && Less(a[0], a[j]);
      LessTransitive(a[0], b[0], a[0]);
      LessIrreflexive(a[0]);
    }
  }

  lemma InsertedAscending(s: seq<string>, at: nat, id: string)
    requires Ascending(s) && at <= |s|
    requires forall i | 0 <= i < at :: Less(s[i], id)
    requires at < |s| ==> Less(id, s[at])
    ensures Ascending(s[..at] + [id] + s[at..])
  {
    forall i | at <= i < |s| ensures Less(id, s[i]) { if i > at { LessTransitive(id, s[at], s[i]); } }
    forall i, j | 0 <= i < j < |s| ensures Less(s[i], s[j]) {}
  }

  /** Collects the ids and sorts them. */
  method SortIds(ids: set<string>) returns (s: seq<string>)
    ensures s == SortedIds(ids)
  {
    hide SortedIds;
    s := [];
    var left := ids;
    while left != {}
      invariant left <= ids && Ascending(s)
      invariant forall x :: x in s <==> x in ids - left
      decreases |left|
    {
      var id :| id in left;
      var at := 0;
      while at < |s| && Less(s[at], id)
        invariant at <= |s| && forall i | 0 <= i < at :: Less(s[i], id)
      {
        at := at + 1;
      }
      if at < |s| {
        assert s[at] in s;
        LessTotal(s[at], id);
      }
      InsertedAscending(s, at, id);
      ghost var before := s;
      s := s[..at] + [id] + s[at..];
      InsertedElements(before, at, id);
      left := left - {id};
    }
    AscendingUnique(s, SortedIds(ids));
  }

  lemma InsertedElements(s: seq<string>, at: nat, id: string)
    requires at <= |s|
    ensures forall x :: x in s[..at] + [id] + s[at..] <==> x in s || x == id
  {
    assert s == s[..at] + s[at..];
  }

  // ----- trimming and case -----

  /** Unicode White_Space. */
  predicate White(c: char) {
    || '\U{9}' <= c <= '\U{D}' || c == ' ' || c == '\U{85}' || c == '\U{A0}' || c == '\U{1680}'
    || '\U{2000}' <= c <= '\U{200A}' || c == '\U{2028}' || c == '\U{2029}' || c == '\U{202F}'
    || c == '\U{205F}' || c == '\U{3000}'
  }

  function TrimStart(s: string): (r: string)
    ensures |r| <= |s| && r == s[|s| - |r|..]
    ensures r != [] ==> !White(r[0])
  {
    if s != [] && White(s[0]) then TrimStart(s[1..]) else s
  }

  function TrimEnd(s: string): (r: string)
    ensures |r| <= |s| && r == s[..|r|]
    ensures r != [] ==> !White(r[|r| - 1])
  {
    if s != [] && White(s[|s| - 1]) then TrimEnd(s[..|s| - 1]) else s
  }

  function Trim(s: string): string { TrimEnd(TrimStart(s)) }

  /** `t` is what is left of `s` without the white space around it; it starts behind the first `lo` characters. */
  ghost predicate Unpadded(s: string, lo: nat, t: string) {
    && lo + |t| <= |s| && s[lo..lo + |t|] == t
    && (forall i | 0 <= i < lo :: White(s[i])) && (forall i | lo + |t| <= i < |s| :: White(s[i]))
    && (t != [] ==> !White(t[0]) && !White(t[|t| - 1]))
  }

  lemma {:induction false} TrimStartIs(s: string)
    ensures forall i | 0 <= i < |s| - |TrimStart(s)| :: White(s[i])
  {
    hide White;
    if s != [] && White(s[0]) { TrimStartIs(s[1..]); }
  }

  lemma {:induction false} TrimEndIs(s: string)
    ensures forall i | |TrimEnd(s)| <= i < |s| :: White(s[i])
  {
    hide White;
    if s != [] && White(s[|s| - 1]) { TrimEndIs(s[..|s| - 1]); }
  }

  lemma TrimIs(s: string)
    ensures Unpadded(s, |s| - |TrimStart(s)|, Trim(s))
  {
    var middle := TrimStart(s);
    var lo, t := |s| - |middle|, TrimEnd(middle);
    TrimStartIs(s);
    TrimEndIs(middle);
    hide White, TrimStart, TrimEnd;
    if t != [] { assert t[0] == middle[0]; }
    UnpaddedIs(s, lo, middle, t);
  }

  lemma UnpaddedIs(s: string, lo: nat, middle: string, t: string)
    requires lo <= |s| && middle == s[lo..] && |t| <= |middle| && t == middle[..|t|]
    requires forall i | 0 <= i < lo :: White(s[i])
    requires forall i | |t| <= i < |middle| :: White(middle[i])
    requires t != [] ==> !White(t[0]) && !White(t[|t| - 1])
    ensures Unpadded(s, lo, t)
  {
    hide White;
    forall i | lo + |t| <= i < |s| ensures White(s[i]) { assert s[i] == middle[i - lo]; }
    assert s[lo..lo + |t|] == t;
  }

  function Lower(c: char): char {
    if 'A' <= c <= 'Z' then c - 'A' + 'a' else c
  }

  predicate EqualIgnoringCase(a: string, b: string) {
    |a| == |b| && forall i | 0 <= i < |a| :: Lower(a[i]) == Lower(b[i])
  }

  // ----- parts of a string -----

  function SplitOnce(s: string, sep: char): Option<(string, string)> {
    if s == [] then None
    else if s[0] == sep then Some(([], s[1..]))
    else
      var r := SplitOnce(s[1..], sep);
      if r.Some? then Some(([s[0]] + r.value.0, r.value.1)) else None
  }

  function Split(s: string, sep: char): (parts: seq<string>)
    ensures parts != []
  {
    if s == [] then [[]]
    else
      var rest := Split(s[1..], sep);
      if s[0] == sep then [[]] + rest else [[s[0]] + rest[0]] + rest[1..]
  }

  lemma {:induction false} SplitAt(a: string, sep: char, rest: string)
    requires forall i | 0 <= i < |a| :: a[i] != sep
    ensures Split(a + ([sep] + rest), sep) == [a] + Split(rest, sep)
    ensures SplitOnce(a + ([sep] + rest), sep) == Some((a, rest))
  {
    if a == [] { assert a + ([sep] + rest) == [sep] + rest; }
    else {
      SplitAt(a[1..], sep, rest);
      assert (a + ([sep] + rest))[1..] == a[1..] + ([sep] + rest);
      assert [a[0]] + a[1..] == a;
    }
  }

  lemma {:induction false} SplitLast(a: string, sep: char)
    requires forall i | 0 <= i < |a| :: a[i] != sep
    ensures Split(a, sep) == [a]
  {
    if a != [] {
      SplitLast(a[1..], sep);
      assert [a[0]] + a[1..] == a;
    }
  }

  predicate Unbroken(s: string, sep: char) {
    forall i | 0 <= i < |s| :: s[i] != sep
  }

  lemma {:induction false} SplitUnbroken(s: string, sep: char)
    ensures forall k | 0 <= k < |Split(s, sep)| :: Unbroken(Split(s, sep)[k], sep)
  {
    if s != [] {
      var rest := Split(s[1..], sep);
      SplitUnbroken(s[1..], sep);
      assert Unbroken(rest[0], sep);
      forall k | 0 <= k < |Split(s, sep)| ensures Unbroken(Split(s, sep)[k], sep) {
        if s[0] == sep { assert k > 0 ==> Split(s, sep)[k] == rest[k - 1]; }
        else { assert k > 0 ==> Split(s, sep)[k] == rest[k]; }
      }
    }
  }

  lemma {:induction false} SplitOnceParts(s: string, sep: char)
    requires SplitOnce(s, sep).Some?
    ensures var (a, b) := SplitOnce(s, sep).value; s == a + ([sep] + b) && Unbroken(a, sep)
  {
    if s[0] != sep {
      SplitOnceParts(s[1..], sep);
      assert s == [s[0]] + s[1..];
    }
  }

  // ----- length in bytes -----

  function Utf8Length(s: string): nat {
    if s == [] then 0
    else (if s[0] <= '\U{7F}' then 1 else if s[0] <= '\U{7FF}' then 2 else if s[0] <= '\U{FFFF}' then 3 else 4) + Utf8Length(s[1..])
  }
}
