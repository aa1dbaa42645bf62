/** Text operations with the exact meaning of the library calls the
    scripts and the C++ pass use: Python's str.startswith, str.endswith,
    `in`, str.replace, str.strip, str.split, str.join, os.path.basename and
    os.path.splitext; C++'s std::getline on a delimiter and the
    find_first_not_of / find_last_not_of trimming idiom. */
module Strings {
  import opened Wrappers

  predicate StartsWith(s: string, p: string) { |p| <= |s| && s[..|p|] == p }

  predicate EndsWith(s: string, p: string) { |p| <= |s| && s[|s| - |p|..] == p }

  /** `p` occurs in `s` starting at index `i`. */
  predicate OccursAt(s: string, p: string, i: int)
  {
    0 <= i && i + |p| <= |s| && s[i..i + |p|] == p
  }

  /** Python's `p in s`. */
  predicate Contains(s: string, p: string) { exists i | 0 <= i <= |s| - |p| :: OccursAt(s, p, i) }

  lemma OccursAtShift(s: string, p: string, i: int, k: nat)
    requires k <= |s| && OccursAt(s[k..], p, i)
    ensures OccursAt(s, p, i + k)
  {
    assert s[k..][i..i + |p|] == s[i + k..i + k + |p|];
  }

  lemma OccursAtPrefix(s: string, t: string, p: string, i: int)
    requires OccursAt(s, p, i)
    ensures OccursAt(s + t, p, i)
  {
    assert (s + t)[i..i + |p|] == s[i..i + |p|];
  }

  lemma OccursAtSuffix(s: string, t: string, p: string, i: int)
    requires OccursAt(t, p, i)
    ensures OccursAt(s + t, p, |s| + i)
  {
    assert (s + t)[|s| + i..|s| + i + |p|] == t[i..i + |p|];
  }

  /** Python's str.replace(a, b): every non-overlapping occurrence of `a`,
      found from left to right, is replaced by `b`. */
  function ReplaceAll(s: string, a: string, b: string): (r: string)
    requires |a| > 0
    decreases |s|
  {
    if |s| < |a| then s
    else if s[..|a|] == a then b + ReplaceAll(s[|a|..], a, b)
    else [s[0]] + ReplaceAll(s[1..], a, b)
  }

  lemma {:induction false} ReplaceAllAbsent(s: string, a: string, b: string)
    requires |a| > 0 && !Contains(s, a)
    ensures ReplaceAll(s, a, b) == s
    decreases |s|
  {
    if |s| >= |a| {
      assert s[..|a|] != a by { assert !OccursAt(s, a, 0); }
      forall i | OccursAt(s[1..], a, i) ensures false {
        OccursAtShift(s, a, i, 1);
      }
      ReplaceAllAbsent(s[1..], a, b);
      assert [s[0]] + s[1..] == s;
    }
  }

  lemma {:induction false} ReplaceAllPresent(s: string, a: string, b: string)
    requires |a| > 0 && Contains(s, a)
    ensures Contains(ReplaceAll(s, a, b), b)
    decreases |s|
  {
    var i :| OccursAt(s, a, i);
    assert OccursAt(s, a, i);
    if s[..|a|] == a {
      assert OccursAt(b + ReplaceAll(s[|a|..], a, b), b, 0);
    } else {
      assert i != 0;
      assert s[1..][i - 1..i - 1 + |a|] == s[i..i + |a|];
      assert OccursAt(s[1..], a, i - 1);
      ReplaceAllPresent(s[1..], a, b);
      var j :| OccursAt(ReplaceAll(s[1..], a, b), b, j);
      assert OccursAt(ReplaceAll(s[1..], a, b), b, j);
      OccursAtSuffix([s[0]], ReplaceAll(s[1..], a, b), b, j);
    }
  }

  /** Replacing by a longer text never shortens, and lengthens whenever
      something was replaced. */
  lemma {:induction false} ReplaceAllLength(s: string, a: string, b: string)
    requires 0 < |a| <= |b|
    ensures |ReplaceAll(s, a, b)| >= |s|
    ensures Contains(s, a) && |a| < |b| ==> |ReplaceAll(s, a, b)| > |s|
    decreases |s|
  {
    if |s| >= |a| {
      if s[..|a|] == a {
        ReplaceAllLength(s[|a|..], a, b);
      } else {
        ReplaceAllLength(s[1..], a, b);
        if Contains(s, a) && |a| < |b| {
          var i :| OccursAt(s, a, i);
          assert OccursAt(s, a, i);
          assert i != 0;
          assert s[1..][i - 1..i - 1 + |a|] == s[i..i + |a|];
          assert OccursAt(s[1..], a, i - 1);
        }
      }
    }
  }

  /** When no occurrence of `a` starts inside `u`, replacing in `u + v`
      leaves `u` alone. */
  lemma {:induction false} ReplaceAllSkip(u: string, v: string, a: string, b: string)
    requires |a| > 0
    requires forall i :: 0 <= i < |u| ==> !OccursAt(u + v, a, i)
    ensures ReplaceAll(u + v, a, b) == u + ReplaceAll(v, a, b)
    decreases |u|
  {
    if |u| > 0 {
      var s := u + v;
      if |s| < |a| {
        assert ReplaceAll(v, a, b) == v;
        assert ReplaceAll(s, a, b) == s;
      } else {
        assert !OccursAt(s, a, 0);
        assert s[1..] == u[1..] + v;
        TailNoOccurrence(u, v, a);
        ReplaceAllSkip(u[1..], v, a, b);
        assert s[..|a|] != a by { assert s[0..|a|] == s[..|a|]; }
        assert ReplaceAll(s, a, b) == [s[0]] + ReplaceAll(s[1..], a, b);
        assert [u[0]] + u[1..] == u;
        assert ReplaceAll(s, a, b) == [u[0]] + (u[1..] + ReplaceAll(v, a, b));
        assert u + ReplaceAll(v, a, b) == [u[0]] + (u[1..] + ReplaceAll(v, a, b));
      }
    } else {
      assert u + v == v;
    }
  }

  lemma TailNoOccurrence(u: string, v: string, a: string)
    requires |u| > 0
    requires forall i :: 0 <= i < |u| ==> !OccursAt(u + v, a, i)
    ensures forall i :: 0 <= i < |u| - 1 ==> !OccursAt(u[1..] + v, a, i)
  {
    forall i | 0 <= i < |u| - 1 ensures !OccursAt(u[1..] + v, a, i) {
      assert (u + v)[1..] == u[1..] + v;
      if OccursAt(u[1..] + v, a, i) {
        OccursAtShift(u + v, a, i, 1);
      }
    }
  }

  /** Replacing leaves a prefix alone that does not contain the first
      character of the searched text. */
  lemma ReplaceAllSkipChars(u: string, v: string, a: string, b: string)
    requires |a| > 0 && forall i :: 0 <= i < |u| ==> u[i] != a[0]
    ensures ReplaceAll(u + v, a, b) == u + ReplaceAll(v, a, b)
  {
    forall i | 0 <= i < |u| ensures !OccursAt(u + v, a, i) {
      assert (u + v)[i] == u[i];
    }
    ReplaceAllSkip(u, v, a, b);
  }

  /** The first character of a replacement is the first character of the
      input or of the replacement text. */
  lemma {:induction false} ReplaceAllHead(s: string, a: string, b: string)
    requires |a| > 0 && |b| > 0 && |s| > 0
    ensures |ReplaceAll(s, a, b)| > 0
    ensures ReplaceAll(s, a, b)[0] == s[0] || ReplaceAll(s, a, b)[0] == b[0]
  {
  }

  /** Python's str.isspace() for one character: the characters that
      str.strip() with no argument removes. */
  predicate IsSpace(c: char)
  {
    c == ' ' || ('\t' <= c <= '\r') || ('\U{1c}' <= c <= '\U{1f}') || c == '\U{85}'
    || c == '\U{a0}' || c == '\U{1680}' || ('\U{2000}' <= c <= '\U{200a}')
    || c == '\U{2028}' || c == '\U{2029}' || c == '\U{202f}' || c == '\U{205f}' || c == '\U{3000}'
  }

  function StripLeft(s: string): (r: string)
    ensures |r| <= |s| && r == s[|s| - |r|..]
    ensures |r| > 0 ==> !IsSpace(r[0])
    ensures forall i :: 0 <= i < |s| - |r| ==> IsSpace(s[i])
  {
    if |s| > 0 && IsSpace(s[0]) then StripLeft(s[1..]) else s
  }

  function StripRight(s: string): (r: string)
    ensures |r| <= |s| && r == s[..|r|]
    ensures |r| > 0 ==> !IsSpace(r[|r| - 1])
    ensures forall i :: |r| <= i < |s| ==> IsSpace(s[i])
  {
    if |s| > 0 && IsSpace(s[|s| - 1]) then StripRight(s[..|s| - 1]) else s
  }

  /** Python's str.strip(): leading and trailing whitespace removed. */
  function Strip(s: string): (r: string)
  {
    StripRight(StripLeft(s))
  }

  lemma StripShape(s: string)
    ensures var r := Strip(s);
      |r| <= |s| && (exists k :: OccursAt(s, r, k))
      && (|r| > 0 ==> !IsSpace(r[0]) && !IsSpace(r[|r| - 1]))
  {
    var l := StripLeft(s);
    var r := StripRight(l);
    var k := |s| - |l|;
    assert OccursAt(s, r, k);
  }

  /** Stripping twice is stripping once. */
  lemma StripIdempotent(s: string)
    ensures Strip(Strip(s)) == Strip(s)
  {
    var r := Strip(s);
    StripShape(s);
    assert StripLeft(r) == r;
    assert StripRight(r) == r;
  }

  /** The first index of `c` in `s`, or -1 (Python's str.find and C++'s
      std::string::find with npos written as -1). */
  function Find(s: string, c: char): (r: int)
    ensures -1 <= r < |s|
    ensures r >= 0 ==> s[r] == c && forall i :: 0 <= i < r ==> s[i] != c
    ensures r == -1 ==> forall i :: 0 <= i < |s| ==> s[i] != c
  {
    if |s| == 0 then -1
    else if s[0] == c then 0
    else var k := Find(s[1..], c); if k == -1 then -1 else k + 1
  }

  /** The last index of `c` in `s`, or -1 (Python's str.rfind). */
  function RFind(s: string, c: char): (r: int)
    ensures -1 <= r < |s|
    ensures r >= 0 ==> s[r] == c && forall i :: r < i < |s| ==> s[i] != c
    ensures r == -1 ==> forall i :: 0 <= i < |s| ==> s[i] != c
  {
    if |s| == 0 then -1
    else if s[|s| - 1] == c then |s| - 1
    else RFind(s[..|s| - 1], c)
  }

  /** os.path.basename on a POSIX path: the text after the last '/'. */
  function Basename(p: string): (r: string)
    ensures forall i :: 0 <= i < |r| ==> r[i] != '/'
    ensures EndsWith(p, r)
  {
    p[RFind(p, '/') + 1..]
  }

  /** os.path.splitext on a POSIX path, as (root, extension). The extension
      starts at the last '.' when that dot lies after the last '/' and
      something other than dots precedes it in the final component. */
  function SplitExt(p: string): (r: (string, string))
    ensures r.0 + r.1 == p
    ensures r.1 == [] || (r.1[0] == '.' && forall i :: 1 <= i < |r.1| ==> r.1[i] != '.' && r.1[i] != '/')
  {
    var sep := RFind(p, '/');
    var dot := RFind(p, '.');
    if dot > sep && exists i :: sep + 1 <= i < dot && p[i] != '.' then (p[..dot], p[dot..])
    else (p, [])
  }

  /** Python's sep.join(xs). */
  function Join(xs: seq<string>, sep: string): (r: string)
  {
    if |xs| == 0 then [] else if |xs| == 1 then xs[0] else xs[0] + sep + Join(xs[1..], sep)
  }

  lemma {:induction false} JoinSnoc(xs: seq<string>, x: string, sep: string)
    ensures Join(xs + [x], sep) == if xs == [] then x else Join(xs, sep) + sep + x
  {
    if |xs| > 1 {
      assert (xs + [x])[1..] == xs[1..] + [x];
      JoinSnoc(xs[1..], x, sep);
    } else if |xs| == 1 {
      assert (xs + [x])[1..] == [x];
    }
  }

  /** Python's s.split(sep) for a non-empty separator: every occurrence
      splits, so the pieces number one more than the occurrences. */
  function Split(s: string, sep: string): (r: seq<string>)
    requires |sep| > 0
    ensures |r| > 0
    decreases |s|
  {
    var i := FirstOccurrence(s, sep, 0);
    if i < 0 then [s] else [s[..i]] + Split(s[i + |sep|..], sep)
  }

  /** The first index at or after `from` where `p` occurs, or -1. */
  function FirstOccurrence(s: string, p: string, from: nat): (r: int)
    requires |p| > 0
    ensures r == -1 || (from <= r && OccursAt(s, p, r))
    ensures r == -1 ==> forall i :: from <= i ==> !OccursAt(s, p, i)
    ensures r >= 0 ==> forall i :: from <= i < r ==> !OccursAt(s, p, i)
    decreases |s| - from
  {
    if from + |p| > |s| then -1
    else if s[from..from + |p|] == p then from
    else FirstOccurrence(s, p, from + 1)
  }

  /** Joining what Split produced with the same separator gives back the
      original text. */
  lemma {:induction false} JoinSplit(s: string, sep: string)
    requires |sep| > 0
    ensures Join(Split(s, sep), sep) == s
    decreases |s|
  {
    var i := FirstOccurrence(s, sep, 0);
    if i >= 0 {
      var rest := s[i + |sep|..];
      JoinSplit(rest, sep);
      var parts := Split(s, sep);
      assert parts == [s[..i]] + Split(rest, sep);
      assert parts[1..] == Split(rest, sep);
      assert s == s[..i] + sep + rest;
    }
  }

  /** std::getline(stream, piece, c) repeated until it fails: the text is
      cut at every `c`, and a final empty piece is not produced. */
  function GetlineSplit(s: string, c: char): (r: seq<string>)
    ensures forall k, i :: 0 <= k < |r| && 0 <= i < |r[k]| ==> r[k][i] != c
    decreases |s|
  {
    if |s| == 0 then []
    else
      var i := Find(s, c);
      if i < 0 then [s] else [s[..i]] + GetlineSplit(s[i + 1..], c)
  }

  /** Text with no `c` in it is read back as a single piece by getline. */
  lemma GetlineSingle(s: string, c: char)
    requires |s| > 0 && forall i :: 0 <= i < |s| ==> s[i] != c
    ensures GetlineSplit(s, c) == [s]
  {
  }

  /** Pieces written with `c` between them, none containing `c` and the last
      one non-empty, are read back exactly by repeated getline. */
  lemma {:induction false} GetlineJoin(xs: seq<string>, c: char)
    requires |xs| > 0 && |xs[|xs| - 1]| > 0
    requires forall k, i :: 0 <= k < |xs| && 0 <= i < |xs[k]| ==> xs[k][i] != c
    ensures GetlineSplit(Join(xs, [c]), c) == xs
    decreases |xs|
  {
    if |xs| > 1 {
      var rest := Join(xs[1..], [c]);
      var s := xs[0] + [c] + rest;
      assert s[|xs[0]|] == c;
      assert forall i :: 0 <= i < |xs[0]| ==> s[i] == xs[0][i];
      assert Find(s, c) == |xs[0]|;
      assert s[..|xs[0]|] == xs[0];
      assert s[|xs[0]| + 1..] == rest;
      GetlineJoin(xs[1..], c);
    }
  }

  /** The characters of `chars` at the front and back of `s` removed, the
      std::string find_first_not_of / find_last_not_of / substr idiom; None
      when every character is in `chars` (find_first_not_of gives npos). */
  function TrimChars(s: string, chars: set<char>): (r: Option<string>)
    ensures r.None? <==> forall i :: 0 <= i < |s| ==> s[i] in chars
    ensures r.Some? ==> |r.value| > 0 && r.value[0] !in chars && r.value[|r.value| - 1] !in chars
  {
    var start := FirstNotIn(s, chars, 0);
    if start == |s| then None
    else Some(s[start..LastNotIn(s, chars, |s|) + 1])
  }

  function FirstNotIn(s: string, chars: set<char>, from: nat): (r: nat)
    requires from <= |s|
    ensures from <= r <= |s| && (r < |s| ==> s[r] !in chars)
    ensures forall i :: from <= i < r ==> s[i] in chars
    decreases |s| - from
  {
    if from == |s| || s[from] !in chars then from else FirstNotIn(s, chars, from + 1)
  }

  function LastNotIn(s: string, chars: set<char>, upto: nat): (r: int)
    requires upto <= |s|
    ensures -1 <= r < upto && (r >= 0 ==> s[r] !in chars)
    ensures forall i :: r < i < upto ==> s[i] in chars
  {
    if upto == 0 then -1 else if s[upto - 1] !in chars then upto - 1 else LastNotIn(s, chars, upto - 1)
  }

  /** Python's list.remove(x): the first occurrence removed; when `x` is
      absent Python raises ValueError, which callers handle. */
  function RemoveFirst<T(==)>(s: seq<T>, x: T): (r: seq<T>)
    ensures x in s ==> multiset(r) == multiset(s) - multiset{x}
    ensures x !in s ==> r == s
  {
    if |s| == 0 then []
    else if s[0] == x then
      assert s == [s[0]] + s[1..];
      s[1..]
    else
      assert s == [s[0]] + s[1..];
      [s[0]] + RemoveFirst(s[1..], x)
  }
}
