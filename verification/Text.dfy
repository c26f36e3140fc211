/** The string operations of Go's standard library that the power service relies on.
    A Go string is a sequence of code points here; the byte order that `sort.Strings` uses
    on valid UTF-8 is the order of the code points. */
module Text {
  /** `unicode.IsSpace`. */
  predicate IsSpace(c: char) {
    var n := c as int;
    || 9 <= n <= 13 || n == 32 || n == 0x85 || n == 0xA0 || n == 0x1680 || 0x2000 <= n <= 0x200A
    || n == 0x2028 || n == 0x2029 || n == 0x202F || n == 0x205F || n == 0x3000
  }

  /** The characters of Unicode's White_Space property. */
  const SPACES: string := "\t\n\U{000B}\U{000C}\r \U{0085}\U{00A0}\U{1680}\U{2000}\U{2001}\U{2002}\U{2003}\U{2004}" +
    "\U{2005}\U{2006}\U{2007}\U{2008}\U{2009}\U{200A}\U{2028}\U{2029}\U{202F}\U{205F}\U{3000}"

  lemma SpaceMeans(c: char)
    ensures IsSpace(c) <==> c in SPACES
  {
  }

  predicate Trimmed(s: string) {
    s == [] || (!IsSpace(s[0]) && !IsSpace(s[|s| - 1]))
  }

  function TrimLeft(s: string): (r: string)
    ensures r == [] || !IsSpace(r[0])
    ensures r == [] || (s != [] && r[|r| - 1] == s[|s| - 1])
    ensures |r| <= |s|
  {
    if s != [] && IsSpace(s[0]) then TrimLeft(s[1..]) else s
  }

  function TrimRight(s: string): (r: string)
    ensures r == [] || !IsSpace(r[|r| - 1])
    ensures r == [] || (s != [] && r[0] == s[0])
    ensures |r| <= |s|
  {
    if s != [] && IsSpace(s[|s| - 1]) then TrimRight(s[..|s| - 1]) else s
  }

  /** `strings.TrimSpace`: the result has no space at either end, and a string that has none
      is returned as it is. */
  function TrimSpace(s: string): (r: string)
    ensures Trimmed(r)
    ensures Trimmed(s) ==> r == s
  {
    TrimRight(TrimLeft(s))
  }

  predicate Blank(s: string) {
    forall i :: 0 <= i < |s| ==> IsSpace(s[i])
  }

  /** `s` is `n` with nothing but space around it. */
  ghost predicate Padded(s: string, n: string) {
    exists l, r :: Blank(l) && Blank(r) && s == l + n + r
  }

  lemma {:induction false} SplitsLeft(s: string) returns (l: string)
    ensures Blank(l) && s == l + TrimLeft(s)
  {
    l := "";
    if s != [] && IsSpace(s[0]) {
      var rest := SplitsLeft(s[1..]);
      l := [s[0]] + rest;
    }
  }

  lemma {:induction false} SplitsRight(s: string) returns (r: string)
    ensures Blank(r) && s == TrimRight(s) + r
  {
    r := "";
    if s != [] && IsSpace(s[|s| - 1]) {
      var rest := SplitsRight(s[..|s| - 1]);
      r := rest + [s[|s| - 1]];
    }
  }

  lemma {:induction false} SkipsLeft(l: string, s: string)
    requires Blank(l)
    ensures TrimLeft(l + s) == TrimLeft(s)
  {
    if l == [] {
      assert l + s == s;
    } else {
      SkipsLeft(l[1..], s);
      assert (l + s)[1..] == l[1..] + s;
    }
  }

  lemma {:induction false} SkipsRight(s: string, r: string)
    requires Blank(r)
    ensures TrimRight(s + r) == TrimRight(s)
  {
    if r == [] {
      assert s + r == s;
    } else {
      var n := |r| - 1;
      SkipsRight(s, r[..n]);
      assert (s + r)[..|s + r| - 1] == s + r[..n];
    }
  }

  lemma TrimsPadding(l: string, n: string, r: string)
    requires Blank(l) && Blank(r) && Trimmed(n)
    ensures TrimSpace(l + n + r) == n
  {
    hide IsSpace;
    assert l + n + r == l + (n + r);
    SkipsLeft(l, n + r);
    if n == [] {
      assert n + r == r + [];
      SkipsLeft(r, []);
    } else {
      SkipsRight(n, r);
    }
  }

  /** What trimming means: it takes space from both ends, all of it and nothing else. */
  lemma TrimSpaceMeans(s: string, n: string)
    ensures TrimSpace(s) == n <==> Trimmed(n) && Padded(s, n)
  {
    hide IsSpace, TrimLeft, TrimRight, Blank, Trimmed;
    if TrimSpace(s) == n {
      var l := SplitsLeft(s);
      var r := SplitsRight(TrimLeft(s));
      assert s == l + n + r;
    }
    if Trimmed(n) && Padded(s, n) {
      var l, r :| Blank(l) && Blank(r) && s == l + n + r;
      TrimsPadding(l, n, r);
    }
  }

  /** `s` is the name `n` with nothing but space around it. */
  ghost predicate IsName(s: string, n: string) {
    n != "" && Trimmed(n) && Padded(s, n)
  }

  lemma IsNameMeans(s: string, n: string)
    ensures IsName(s, n) <==> n != "" && TrimSpace(s) == n
  {
    hide TrimSpace, Trimmed, Padded;
    TrimSpaceMeans(s, n);
  }

  /** `n` is one of the names given, without the space around it; blank ones do not count. */
  ghost predicate OneOf(names: seq<string>, n: string) {
    n != "" && Trimmed(n) && exists i :: 0 <= i < |names| && Padded(names[i], n)
  }

  lemma OneOfNext(names: seq<string>, s: string, n: string)
    ensures OneOf(names + [s], n) <==> OneOf(names, n) || (n != "" && TrimSpace(s) == n)
  {
    hide TrimSpace, Trimmed, Padded;
    TrimSpaceMeans(s, n);
    var all, k := names + [s], |names|;
    assert all[k] == s;
    if i :| 0 <= i < k && Padded(names[i], n) {
      assert Padded(all[i], n);
    }
  }

  lemma OneOfMeans(names: seq<string>, n: string)
    ensures OneOf(names, n) <==> n != "" && exists i :: 0 <= i < |names| && TrimSpace(names[i]) == n
  {
    hide TrimSpace, Trimmed, Padded;
    forall i | 0 <= i < |names| ensures TrimSpace(names[i]) == n <==> Trimmed(n) && Padded(names[i], n) {
      TrimSpaceMeans(names[i], n);
    }
  }

  lemma BlankMeans(s: string)
    ensures Blank(s) <==> TrimSpace(s) == ""
  {
    hide TrimSpace;
    TrimSpaceMeans(s, "");
    if Blank(s) {
      var r := "";
      assert Blank(r) && s == s + "" + r;
    }
  }

  /** Names and states are compared without regard to case and to space around them. */
  ghost predicate Reads(s: string, lower: string, upper: string) {
    exists m :: Padded(s, m) && Spells(m, lower, upper)
  }

  predicate Spells(m: string, lower: string, upper: string) {
    |m| == |lower| == |upper| && forall i :: 0 <= i < |m| ==> m[i] == lower[i] || m[i] == upper[i]
  }

  function Lower(c: char): char {
    if 'A' <= c <= 'Z' then (c as int + 32) as char else c
  }

  /** `strings.ToLower` and `strings.EqualFold` on the ASCII range. The service only compares with
      "Node", "BMC", "On" and "Off", and no code point outside ASCII folds to one of their letters. */
  function ToLower(s: string): (r: string)
    ensures |r| == |s|
    ensures forall i :: 0 <= i < |s| ==> r[i] == Lower(s[i])
  {
    seq(|s|, i requires 0 <= i < |s| => Lower(s[i]))
  }

  predicate EqualFold(a: string, b: string) {
    ToLower(a) == ToLower(b)
  }

  /** The order of `sort.Strings`. */
  predicate LessEq(a: string, b: string) {
    a == [] || (b != [] && (a[0] < b[0] || (a[0] == b[0] && LessEq(a[1..], b[1..]))))
  }

  predicate Less(a: string, b: string) {
    a != b && LessEq(a, b)
  }

  /** The order is that of the first place where two strings differ; a proper prefix comes first. */
  predicate BeforeAt(a: string, b: string, k: nat) {
    k <= |a| && k < |b| && a[..k] == b[..k] && (k == |a| || a[k] < b[k])
  }

  lemma BeforeShifts(a: string, b: string, k: nat)
    requires a != [] && b != [] && k > 0
    ensures BeforeAt(a, b, k) <==> a[0] == b[0] && BeforeAt(a[1..], b[1..], k - 1)
  {
    if k <= |a| && k < |b| {
      assert a[..k] == [a[0]] + a[1..][..k - 1] && b[..k] == [b[0]] + b[1..][..k - 1];
      assert a[1..][..k - 1] == a[..k][1..] && b[1..][..k - 1] == b[..k][1..];
    }
  }

  lemma {:induction false} LessMeans(a: string, b: string)
    ensures Less(a, b) <==> exists k :: BeforeAt(a, b, k)
  {
    if a == [] || b == [] || a[0] != b[0] {
      if b != [] {
        assert a[..0] == b[..0];
        assert BeforeAt(a, b, 0) <==> a == [] || a[0] < b[0];
      }
      forall k: nat | a != [] && b != [] && k > 0 ensures !BeforeAt(a, b, k) { BeforeShifts(a, b, k); }
    } else {
      LessMeans(a[1..], b[1..]);
      assert a == [a[0]] + a[1..] && b == [b[0]] + b[1..];
      assert !BeforeAt(a, b, 0);
      hide BeforeAt;
      if k: nat :| BeforeAt(a[1..], b[1..], k) {
        BeforeShifts(a, b, k + 1);
      }
      if k: nat :| k > 0 && BeforeAt(a, b, k) {
        BeforeShifts(a, b, k);
      }
    }
  }

  lemma {:induction false} LessEqTotal(a: string, b: string)
    ensures LessEq(a, b) || LessEq(b, a)
    ensures LessEq(a, b) && LessEq(b, a) ==> a == b
  {
    if a != [] && b != [] && a[0] == b[0] {
      LessEqTotal(a[1..], b[1..]);
      assert a == [a[0]] + a[1..] && b == [b[0]] + b[1..];
    }
  }

  lemma {:induction false} LessEqTransitive(a: string, b: string, c: string)
    requires LessEq(a, b) && LessEq(b, c)
    ensures LessEq(a, c)
  {
    if a != [] && a[0] == b[0] && b[0] == c[0] {
      LessEqTransitive(a[1..], b[1..], c[1..]);
    }
  }

  /** Strictly ascending, so without repetition. */
  ghost predicate Ascending(s: seq<string>) {
    forall i, j :: 0 <= i < j < |s| ==> Less(s[i], s[j])
  }

  ghost predicate Distinct(s: seq<string>) {
    forall i, j :: 0 <= i < j < |s| ==> s[i] != s[j]
  }

  /** Names as the service keeps them. */
  ghost predicate Tidied(s: seq<string>) {
    forall i :: 0 <= i < |s| ==> Trimmed(s[i]) && s[i] != ""
  }

  function Elements(s: seq<string>): set<string> {
    set x | x in s
  }

  function Insert(x: string, s: seq<string>): (r: seq<string>)
    requires Ascending(s) && x !in s
    ensures Ascending(r) && Elements(r) == Elements(s) + {x} && |r| == |s| + 1
  {
    if s == [] then [x]
    else if LessEq(x, s[0]) then
      BelowAll(x, s);
      [x] + s
    else
      LessEqTotal(x, s[0]);
      var rest := Insert(x, s[1..]);
      InsertedTail(x, s, rest);
      [s[0]] + rest
  }

  lemma BelowAll(x: string, s: seq<string>)
    requires Ascending(s) && s != [] && LessEq(x, s[0]) && x !in s
    ensures forall j :: 0 <= j < |s| ==> Less(x, s[j])
  {
    forall j | 0 <= j < |s| ensures Less(x, s[j]) {
      if j > 0 {
        assert Less(s[0], s[j]);
        LessEqTransitive(x, s[0], s[j]);
      }
    }
  }

  lemma InsertedTail(x: string, s: seq<string>, rest: seq<string>)
    requires Ascending(s) && s != [] && Less(s[0], x)
    requires Ascending(rest) && Elements(rest) == Elements(s[1..]) + {x}
    ensures Ascending([s[0]] + rest) && Elements([s[0]] + rest) == Elements(s) + {x}
  {
    assert s == [s[0]] + s[1..];
    assert Elements(s) == {s[0]} + Elements(s[1..]);
    assert Elements([s[0]] + rest) == {s[0]} + Elements(rest);
    forall j | 0 <= j < |rest| ensures Less(s[0], rest[j]) {
      assert rest[j] in Elements(rest);
      if rest[j] != x {
        var k :| 1 <= k < |s| && s[k] == rest[j];
      }
    }
  }

  /** `sort.Strings` on a list without repetitions, the only kind the service sorts. */
  function SortStrings(s: seq<string>): (r: seq<string>)
    requires Distinct(s)
    ensures Ascending(r) && Elements(r) == Elements(s) && |r| == |s|
  {
    if s == [] then []
    else
      assert s == [s[0]] + s[1..];
      assert s[0] !in Elements(SortStrings(s[1..]));
      Insert(s[0], SortStrings(s[1..]))
  }

  /** An ascending list is determined by its elements. */
  lemma {:induction false} AscendingUnique(a: seq<string>, b: seq<string>)
    requires Ascending(a) && Ascending(b) && Elements(a) == Elements(b)
    ensures a == b
  {
    NoElements(a);
    NoElements(b);
    if a != [] {
      assert a[0] in Elements(a);
      assert b[0] in Elements(a) by { assert b[0] in Elements(b); }
      if a[0] != b[0] {
        var i :| 0 <= i < |a| && a[i] == b[0];
        var j :| 0 <= j < |b| && b[j] == a[0];
        assert Less(a[0], a[i]) && Less(b[0], b[j]);
        LessEqTotal(a[0], b[0]);
      }
      TailElements(a);
      TailElements(b);
      AscendingUnique(a[1..], b[1..]);
      assert a == [a[0]] + a[1..] && b == [b[0]] + b[1..];
    }
  }

  lemma NoElements(s: seq<string>)
    ensures Elements(s) == {} <==> s == []
  {
    if s != [] {
      assert s[0] in Elements(s);
    }
  }

  lemma TailElements(a: seq<string>)
    requires Ascending(a) && a != []
    ensures Elements(a[1..]) == Elements(a) - {a[0]}
  {
    assert a == [a[0]] + a[1..];
  }
}
