/** The pieces of Python's built-in `str` and `list` behaviour that the
    modelled code relies on: truthiness of optional strings, slicing with
    negative bounds, `str.split`, `str.join`, `str.replace` of one character,
    `str.strip`, `str.lower`, `int(str)`, and the list comprehensions that
    filter a list. Strings are sequences of characters. */
module Py {
  import opened Wrappers

  function Min(a: int, b: int): int { if a <= b then a else b }

  function Max(a: int, b: int): int { if a >= b then a else b }

  /** Truthiness of a value that is `None` or a string: `None` and `""` are false. */
  predicate Truthy(x: Option<string>) { x.Some? && x.value != "" }

  /** `x or d` where `x` may be `None`. */
  function Or(x: Option<string>, d: string): string {
    if Truthy(x) then x.value else d
  }

  // ---------------------------------------------------------------- slicing

  /** `s[:n]` */
  function Take<T>(s: seq<T>, n: nat): (r: seq<T>)
    ensures |r| == Min(n, |s|) && r == s[..|r|]
  {
    if n <= |s| then s[..n] else s
  }

  /** `s[-n:]`. As in Python, `s[-0:]` is `s[0:]`, the whole sequence. */
  function TakeLast<T>(s: seq<T>, n: nat): (r: seq<T>)
    ensures |r| <= |s| && r == s[|s| - |r|..]
    ensures n == 0 ==> r == s
    ensures n > 0 ==> |r| == Min(n, |s|)
  {
    if n == 0 || n >= |s| then s else s[|s| - n..]
  }

  // ------------------------------------------------- filtering and choosing

  /** `a` is obtained from `b` by deleting elements (order is kept). */
  predicate IsSubseq<T(==)>(a: seq<T>, b: seq<T>)
    decreases |b|
  {
    if a == [] then true
    else if b == [] then false
    else if a[0] == b[0] then IsSubseq(a[1..], b[1..])
    else IsSubseq(a, b[1..])
  }

  /** A subsequence stays one when an element is appended to the longer
      sequence, and when the same element is appended to both. */
  lemma {:induction false} SubseqExtend<T>(a: seq<T>, b: seq<T>, x: T)
    requires IsSubseq(a, b)
    ensures IsSubseq(a, b + [x]) && IsSubseq(a + [x], b + [x])
    decreases |b|
  {
    if a == [] {
      if b != [] {
        SubseqExtend(a, b[1..], x);
        assert (b + [x])[1..] == b[1..] + [x];
      }
    } else if b != [] {
      assert (a + [x])[1..] == a[1..] + [x];
      assert (b + [x])[1..] == b[1..] + [x];
      if a[0] == b[0] {
        SubseqExtend(a[1..], b[1..], x);
      } else {
        SubseqExtend(a, b[1..], x);
      }
    }
  }

  /** `[f(x) for x in s if keep(x)]`, built from the left. */
  function FilterMap<A, B>(s: seq<A>, keep: A -> bool, f: A -> B): (r: seq<B>)
    ensures |r| <= |s|
    decreases |s|
  {
    if s == [] then []
    else
      var p := FilterMap(s[..|s| - 1], keep, f);
      if keep(s[|s| - 1]) then p + [f(s[|s| - 1])] else p
  }

  /** The positions of the elements of `s` that `keep` accepts, in increasing order. */
  function KeptIndices<A>(s: seq<A>, keep: A -> bool): (r: seq<nat>)
    ensures forall j :: 0 <= j < |r| ==> r[j] < |s| && keep(s[r[j]])
    ensures forall j, k :: 0 <= j < k < |r| ==> r[j] < r[k]
    ensures forall i :: 0 <= i < |s| && keep(s[i]) ==> i in r
    decreases |s|
  {
    if s == [] then []
    else
      var init := s[..|s| - 1];
      var p := KeptIndices(init, keep);
      assert forall i :: 0 <= i < |init| ==> init[i] == s[i];
      if keep(s[|s| - 1]) then p + [|s| - 1] else p
  }

  /** The filtered and mapped list is `f` at each kept position, in order. */
  lemma {:induction false} FilterMapAt<A, B>(s: seq<A>, keep: A -> bool, f: A -> B)
    ensures |FilterMap(s, keep, f)| == |KeptIndices(s, keep)|
    ensures forall j :: 0 <= j < |KeptIndices(s, keep)| ==> FilterMap(s, keep, f)[j] == f(s[KeptIndices(s, keep)[j]])
    decreases |s|
  {
    if s != [] {
      var init, last := s[..|s| - 1], s[|s| - 1];
      FilterMapAt(init, keep, f);
      var p, ki := FilterMap(init, keep, f), KeptIndices(init, keep);
      var r, kr := FilterMap(s, keep, f), KeptIndices(s, keep);
      if keep(last) {
        assert r == p + [f(last)] && kr == ki + [|s| - 1];
        forall j | 0 <= j < |kr| ensures r[j] == f(s[kr[j]]) {
          if j < |ki| {
            assert r[j] == p[j] && kr[j] == ki[j] && init[ki[j]] == s[ki[j]];
          }
        }
      } else {
        assert r == p && kr == ki;
        forall j | 0 <= j < |kr| ensures r[j] == f(s[kr[j]]) {
          assert init[ki[j]] == s[ki[j]];
        }
      }
    }
  }

  predicate Distinct<T(==)>(s: seq<T>) {
    forall i, j :: 0 <= i < j < |s| ==> s[i] != s[j]
  }

  /** `[x for x in s if f(x)]` */
  function Filter<T>(s: seq<T>, f: T -> bool): (r: seq<T>)
    ensures |r| <= |s|
    ensures forall i :: 0 <= i < |r| ==> r[i] in s && f(r[i])
    ensures forall i :: 0 <= i < |s| && f(s[i]) ==> s[i] in r
    ensures IsSubseq(r, s)
  {
    if s == [] then []
    else if f(s[0]) then [s[0]] + Filter(s[1..], f)
    else Filter(s[1..], f)
  }

  lemma FilterAppend<T>(a: seq<T>, b: seq<T>, f: T -> bool)
    ensures Filter(a + b, f) == Filter(a, f) + Filter(b, f)
  {
    if a != [] {
      assert (a + b)[1..] == a[1..] + b;
      FilterAppend(a[1..], b, f);
    } else {
      assert a + b == b;
    }
  }

  lemma DistinctCons<T>(x: T, t: seq<T>)
    requires x !in t && Distinct(t)
    ensures Distinct([x] + t)
  {
    var s := [x] + t;
    forall i, j | 0 <= i < j < |s| ensures s[i] != s[j] {
      if i == 0 { assert s[j] == t[j - 1]; }
      else { assert s[i] == t[i - 1] && s[j] == t[j - 1]; }
    }
  }

  /** Filtering a list without repeats gives a list without repeats. */
  lemma {:induction false} DistinctFilter<T>(s: seq<T>, f: T -> bool)
    requires Distinct(s)
    ensures Distinct(Filter(s, f))
  {
    if s != [] {
      assert Distinct(s[1..]) by {
        forall i, j | 0 <= i < j < |s[1..]| ensures s[1..][i] != s[1..][j] {
          assert s[1..][i] == s[i + 1] && s[1..][j] == s[j + 1];
        }
      }
      DistinctFilter(s[1..], f);
      if f(s[0]) {
        assert s[0] !in s[1..] by {
          forall k | 0 <= k < |s[1..]| ensures s[1..][k] != s[0] { assert s[1..][k] == s[k + 1]; }
        }
        DistinctCons(s[0], Filter(s[1..], f));
      }
    }
  }

  /** The first draw, or 0 when the draws are used up. */
  function Head(draws: seq<nat>): nat { if draws == [] then 0 else draws[0] }

  function Tail(draws: seq<nat>): seq<nat> { if draws == [] then [] else draws[1..] }

  /** `random.choice(s)`, the random index given as a draw. */
  function Choice<T>(s: seq<T>, draw: nat): (r: T)
    requires s != []
    ensures r in s
  {
    s[draw % |s|]
  }

  /** `random.sample(pool, k)` for `0 <= k`: `k` (or all, if fewer) elements
      taken without replacement, the position of each taken from the draws. */
  function Sample<T>(pool: seq<T>, draws: seq<nat>, k: nat): (r: seq<T>)
    ensures |r| == Min(k, |pool|)
    ensures forall j :: 0 <= j < |r| ==> r[j] in pool
    decreases k
  {
    if k == 0 || pool == [] then []
    else
      var i := Head(draws) % |pool|;
      var rest := pool[..i] + pool[i + 1..];
      assert forall j :: 0 <= j < |rest| ==> rest[j] in pool by {
        forall j | 0 <= j < |rest| ensures rest[j] in pool {
          assert rest[j] == pool[if j < i then j else j + 1];
        }
      }
      [pool[i]] + Sample(rest, Tail(draws), k - 1)
  }

  /** Sampling from a pool without repeats never takes an element twice. */
  lemma {:induction false} DistinctSample<T>(pool: seq<T>, draws: seq<nat>, k: nat)
    requires Distinct(pool)
    ensures Distinct(Sample(pool, draws, k))
    decreases k
  {
    if k != 0 && pool != [] {
      var i := Head(draws) % |pool|;
      var rest := pool[..i] + pool[i + 1..];
      assert Distinct(rest) by {
        forall a, b | 0 <= a < b < |rest| ensures rest[a] != rest[b] {
          var a' := if a < i then a else a + 1;
          var b' := if b < i then b else b + 1;
          assert rest[a] == pool[a'] && rest[b] == pool[b'];
        }
      }
      assert pool[i] !in rest by {
        forall a | 0 <= a < |rest| ensures rest[a] != pool[i] {
          var a' := if a < i then a else a + 1;
          assert rest[a] == pool[a'];
        }
      }
      DistinctSample(rest, Tail(draws), k - 1);
      DistinctCons(pool[i], Sample(rest, Tail(draws), k - 1));
    }
  }

  // ------------------------------------------------------- joining, splitting

  /** `sep.join(lines)` */
  function Join(lines: seq<string>, sep: string): string
    decreases |lines|
  {
    if lines == [] then ""
    else if |lines| == 1 then lines[0]
    else lines[0] + sep + Join(lines[1..], sep)
  }

  /** `s.split(c)` for a one-character separator `c`: the pieces between the
      occurrences of `c`; the first piece is the text before the first `c`. */
  function Split(s: string, c: char): (r: seq<string>)
    ensures |r| >= 1
    ensures |r[0]| <= |s| && r[0] == s[..|r[0]|] && c !in r[0]
    ensures |r[0]| < |s| ==> s[|r[0]|] == c
    ensures c !in s ==> r == [s]
    decreases |s|
  {
    if s == "" then [""]
    else
      var rest := Split(s[1..], c);
      if s[0] == c then [""] + rest
      else
        assert c !in s ==> c !in s[1..] && [s[0]] + s[1..] == s;
        [[s[0]] + rest[0]] + rest[1..]
  }

  lemma {:induction false} SplitAfterPiece(a: string, t: string, c: char)
    requires c !in a
    ensures Split(a + [c] + t, c) == [a] + Split(t, c)
    decreases |a|
  {
    var s := a + [c] + t;
    if a == "" {
      assert s[1..] == t;
    } else {
      assert s[1..] == a[1..] + [c] + t;
      SplitAfterPiece(a[1..], t, c);
      assert [a[0]] + a[1..] == a;
    }
  }

  /** Splitting what was joined gives the lines back, when no line holds the separator. */
  lemma {:induction false} SplitJoin(lines: seq<string>, c: char)
    requires lines != []
    requires forall i :: 0 <= i < |lines| ==> c !in lines[i]
    ensures Split(Join(lines, [c]), c) == lines
    decreases |lines|
  {
    if |lines| > 1 {
      SplitJoin(lines[1..], c);
      SplitAfterPiece(lines[0], Join(lines[1..], [c]), c);
      assert [lines[0]] + lines[1..] == lines;
    }
  }

  // ---------------------------------------------------- character mapping

  /** `s.replace(from, to)` for one-character `from` and `to`. */
  function ReplaceChar(s: string, from: char, to: char): (r: string)
    ensures |r| == |s|
    ensures forall i :: 0 <= i < |s| ==> r[i] == (if s[i] == from then to else s[i])
  {
    seq(|s|, i requires 0 <= i < |s| => if s[i] == from then to else s[i])
  }

  /** `s.replace("\n", " ")` */
  function Unwrap(s: string): (r: string)
    ensures |r| == |s| && '\n' !in r
    ensures forall i :: 0 <= i < |s| ==> r[i] == (if s[i] == '\n' then ' ' else s[i])
  {
    var r := ReplaceChar(s, '\n', ' ');
    assert forall i :: 0 <= i < |r| ==> r[i] != '\n';
    r
  }

  /** Cutting and then unwrapping is unwrapping and then cutting:
      `s[:n].replace("\n", " ") == s.replace("\n", " ")[:n]`. */
  lemma UnwrapTake(s: string, n: nat)
    ensures Unwrap(Take(s, n)) == Take(Unwrap(s), n)
  {
    var a, b := Unwrap(Take(s, n)), Take(Unwrap(s), n);
    assert |a| == |b|;
    forall i | 0 <= i < |a| ensures a[i] == b[i] {
      assert Take(s, n)[i] == s[i];
    }
  }

  function LowerChar(ch: char): char {
    if 'A' <= ch <= 'Z' then (ch as int + 32) as char else ch
  }

  /** `s.lower()`, for the ASCII letters. */
  function Lower(s: string): (r: string)
    ensures |r| == |s| && forall i :: 0 <= i < |s| ==> r[i] == LowerChar(s[i])
  {
    seq(|s|, i requires 0 <= i < |s| => LowerChar(s[i]))
  }

  // -------------------------------------------------------------- searching

  predicate OccursAt(s: string, pat: string, j: int) {
    0 <= j && j + |pat| <= |s| && s[j..j + |pat|] == pat
  }

  /** `s.find(pat)` as an option: the first position where `pat` occurs. */
  function Find(s: string, pat: string): (r: Option<nat>)
    requires pat != ""
    ensures r.Some? ==> OccursAt(s, pat, r.value)
    ensures r.Some? ==> forall j :: 0 <= j < r.value ==> !OccursAt(s, pat, j)
    ensures r.None? ==> forall j :: !OccursAt(s, pat, j)
    decreases |s|
  {
    if |s| < |pat| then None
    else if s[..|pat|] == pat then Some(0)
    else
      var r := Find(s[1..], pat);
      assert forall j :: 0 < j ==> (OccursAt(s, pat, j) <==> OccursAt(s[1..], pat, j - 1)) by {
        forall j | 0 < j ensures OccursAt(s, pat, j) <==> OccursAt(s[1..], pat, j - 1) {
          if j + |pat| <= |s| { assert s[1..][j - 1..j - 1 + |pat|] == s[j..j + |pat|]; }
        }
      }
      match r
      case None => None
      case Some(i) => Some(i + 1)
  }

  /** `pat in s` for a non-empty `pat`. */
  predicate Contains(s: string, pat: string)
    requires pat != ""
  {
    Find(s, pat).Some?
  }

  predicate EndsWith(s: string, suffix: string) {
    |suffix| <= |s| && s[|s| - |suffix|..] == suffix
  }

  predicate StartsWith(s: string, prefix: string) {
    |prefix| <= |s| && s[..|prefix|] == prefix
  }

  /** Where `s.split(sep)[-1]` starts. Python splits from the left without
      overlaps, so the last piece holds no `sep`, and when `sep` occurs at all
      the last piece comes right after an occurrence of it. */
  function LastPieceStart(s: string, sep: string): (k: nat)
    requires sep != ""
    ensures k <= |s|
    ensures forall j :: !OccursAt(s[k..], sep, j)
    ensures Find(s, sep).None? ==> k == 0
    ensures Find(s, sep).Some? ==> |sep| <= k && s[k - |sep|..k] == sep
    decreases |s|
  {
    match Find(s, sep)
    case None => 0
    case Some(i) =>
      var t := s[i + |sep|..];
      var k := LastPieceStart(t, sep);
      var m := i + |sep| + k;
      SuffixAfter(s, sep, i, t, k, m);
      m
  }

  /** The step of `LastPieceStart`: a last-piece start `k` of the text `t`
      after the first `sep`, at `i`, is one for `s` once shifted to `m`. */
  lemma SuffixAfter(s: string, sep: string, i: nat, t: string, k: nat, m: nat)
    requires sep != "" && OccursAt(s, sep, i)
    requires t == s[i + |sep|..] && m == i + |sep| + k
    requires k <= |t| && forall j :: !OccursAt(t[k..], sep, j)
    requires k == 0 || (|sep| <= k && t[k - |sep|..k] == sep)
    ensures |sep| <= m <= |s|
    ensures forall j :: !OccursAt(s[m..], sep, j)
    ensures s[m - |sep|..m] == sep
  {
    assert s[m..] == t[k..];
    if k > 0 {
      assert s[m - |sep|..m] == t[k - |sep|..k];
    }
  }

  /** `s.split(sep)[-1]`. */
  function LastPiece(s: string, sep: string): (r: string)
    requires sep != ""
    ensures |r| <= |s| && r == s[|s| - |r|..]
    ensures forall j :: !OccursAt(r, sep, j)
  {
    s[LastPieceStart(s, sep)..]
  }

  /** `s.rstrip(c)` for one character `c`. */
  function RStrip(s: string, c: char): (r: string)
    ensures |r| <= |s| && r == s[..|r|]
    ensures r == "" || r[|r| - 1] != c
    ensures forall i :: |r| <= i < |s| ==> s[i] == c
  {
    if s != "" && s[|s| - 1] == c then RStrip(s[..|s| - 1], c) else s
  }

  // --------------------------------------------------------------- stripping

  /** The characters `str.isspace()` accepts, which `str.strip()` removes. */
  predicate IsSpace(c: char) {
    c == ' ' || c == '\t' || c == '\n' || c == '\r' || c == '\U{B}' || c == '\U{C}'
    || ('\U{1C}' <= c <= '\U{1F}') || c == '\U{85}' || c == '\U{A0}' || c == '\U{1680}'
    || ('\U{2000}' <= c <= '\U{200A}') || c == '\U{2028}' || c == '\U{2029}' || c == '\U{202F}'
    || c == '\U{205F}' || c == '\U{3000}'
  }

  /** `s` without the characters satisfying `space` at its end. */
  function TrimEnd(s: string, space: char -> bool): (r: string)
    ensures |r| <= |s|
  {
    if s != "" && space(s[|s| - 1]) then TrimEnd(s[..|s| - 1], space) else s
  }

  /** `TrimEnd(s, space)` is a prefix of `s` that does not end in `space`,
      and only `space` characters follow it. */
  lemma {:induction false} TrimEndIsPrefix(s: string, space: char -> bool)
    ensures var r := TrimEnd(s, space);
      && r == s[..|r|] && (r == "" || !space(r[|r| - 1]))
      && forall i :: |r| <= i < |s| ==> space(s[i])
  {
    if s != "" && space(s[|s| - 1]) {
      var p := s[..|s| - 1];
      TrimEndIsPrefix(p, space);
      var r := TrimEnd(p, space);
      assert r == s[..|r|] by { assert p[..|r|] == s[..|r|]; }
      assert forall i :: |r| <= i < |p| ==> s[i] == p[i];
    }
  }

  /** The number of `space` characters `s` starts with. */
  function Leading(s: string, space: char -> bool): (n: nat)
    ensures n <= |s|
  {
    if s != "" && space(s[0]) then 1 + Leading(s[1..], space) else 0
  }

  /** Exactly the first `Leading(s, space)` characters satisfy `space`. */
  lemma {:induction false} LeadingAreSpace(s: string, space: char -> bool)
    ensures var n := Leading(s, space);
      && (forall i :: 0 <= i < n ==> space(s[i]))
      && (n == |s| || !space(s[n]))
  {
    if s != "" && space(s[0]) {
      LeadingAreSpace(s[1..], space);
      assert forall i :: 1 <= i < |s| ==> s[i] == s[1..][i - 1];
    }
  }

  /** `s` with the `space` characters at its two ends removed. */
  function Trim(s: string, space: char -> bool): (r: string)
    ensures |r| <= |s|
  {
    TrimEnd(s[Leading(s, space)..], space)
  }

  lemma TrimIsSlice(s: string, space: char -> bool)
    ensures var n, r := Leading(s, space), Trim(s, space);
      && (r == "" || (!space(r[0]) && !space(r[|r| - 1])))
      && n + |r| <= |s| && r == s[n..n + |r|]
      && (forall i :: 0 <= i < n ==> space(s[i]))
      && (forall i :: n + |r| <= i < |s| ==> space(s[i]))
  {
    var n := Leading(s, space);
    var t := s[n..];
    var r := TrimEnd(t, space);
    LeadingAreSpace(s, space);
    TrimEndIsPrefix(t, space);
    assert r == s[n..n + |r|] by {
      assert r == t[..|r|];
      assert t[..|r|] == s[n..n + |r|];
    }
    forall i | n + |r| <= i < |s| ensures space(s[i]) {
      assert s[i] == t[i - n];
    }
    if r != "" {
      assert r[0] == t[0] == s[n];
    }
  }

  /** The number of whitespace characters `s` starts with. */
  function LeadingSpaces(s: string): (n: nat)
    ensures n <= |s|
  {
    Leading(s, IsSpace)
  }

  /** `s.strip()` */
  function Strip(s: string): (r: string)
    ensures |r| <= |s|
  {
    Trim(s, IsSpace)
  }

  /** `s.strip()` is `s` with exactly the whitespace at its two ends
      removed: a slice of `s` that neither starts nor ends in whitespace,
      with only whitespace before and after it. */
  lemma StripTrims(s: string)
    ensures var n, r := LeadingSpaces(s), Strip(s);
      && (r == "" || (!IsSpace(r[0]) && !IsSpace(r[|r| - 1])))
      && n + |r| <= |s| && r == s[n..n + |r|]
      && (forall i :: 0 <= i < n ==> IsSpace(s[i]))
      && (forall i :: n + |r| <= i < |s| ==> IsSpace(s[i]))
  {
    TrimIsSlice(s, IsSpace);
  }

  /** A string with no whitespace at either end is its own strip. */
  lemma StripUnspaced(s: string)
    requires s == "" || (!IsSpace(s[0]) && !IsSpace(s[|s| - 1]))
    ensures Strip(s) == s
  {
  }

  /** `"ok\u3000".strip() == "ok"`: the ideographic space is whitespace too. */
  lemma StripIdeographicSpace()
    ensures Strip("ok\U{3000}") == "ok"
  {
    var s := "ok\U{3000}";
    assert LeadingSpaces(s) == 0;
    assert s[..2] == "ok";
  }

  // ------------------------------------------------------------------ int()

  predicate IsDigit(c: char) { '0' <= c <= '9' }

  predicate AllDigits(s: string) { forall i :: 0 <= i < |s| ==> IsDigit(s[i]) }

  function DigitsValue(s: string): nat
    requires AllDigits(s)
    decreases |s|
  {
    if s == "" then 0
    else DigitsValue(s[..|s| - 1]) * 10 + (s[|s| - 1] as int - '0' as int)
  }

  /** The digits of a base-10 literal as `int()` reads it: ASCII digits,
      with single underscores allowed between two of them; `None` for any
      other string. */
  function GroupedDigits(s: string): (r: Option<string>)
    ensures r.Some? ==> r.value != "" && AllDigits(r.value)
    ensures s != "" && AllDigits(s) ==> r == Some(s)
    decreases |s|
  {
    if s == "" || !IsDigit(s[0]) then None
    else if |s| == 1 then Some(s)
    else
      var rest := if s[1] == '_' then s[2..] else s[1..];
      assert AllDigits(s) ==>
        && s[1] != '_' && rest == s[1..] && [s[0]] + rest == s
        && forall i :: 0 <= i < |rest| ==> rest[i] == s[i + 1];
      match GroupedDigits(rest)
      case Some(t) => Some([s[0]] + t)
      case None => None
  }

  /** `int(s)`: optional surrounding whitespace, an optional sign, then
      digits with single underscores between them; `None` where Python
      raises `ValueError`. */
  function ParseInt(s: string): Option<int> {
    var t := Strip(s);
    if t != "" && (t[0] == '-' || t[0] == '+') then
      match GroupedDigits(t[1..])
      case Some(d) =>
        var v: int := DigitsValue(d);
        Some(if t[0] == '-' then -v else v)
      case None => None
    else
      match GroupedDigits(t)
      case Some(d) => Some(DigitsValue(d))
      case None => None
  }

  /** `str(n)` for a natural number. */
  function NatToString(n: nat): (r: string)
    ensures r != "" && AllDigits(r) && r[0] != '-' && r[0] != '+'
  {
    var d := ['0' + ((n % 10) as char)];
    if n < 10 then d else NatToString(n / 10) + d
  }

  /** `int(str(n)) == n` */
  lemma {:induction false} ParseShow(n: nat)
    ensures ParseInt(NatToString(n)) == Some(n)
  {
    var s := NatToString(n);
    StripUnspaced(s);
    ShowValue(n);
  }

  /** `int("1") == 1` */
  lemma ParseOne()
    ensures ParseInt("1") == Some(1)
  {
    ParseShow(1);
    assert NatToString(1) == "1";
  }

  lemma {:induction false} ShowValue(n: nat)
    ensures DigitsValue(NatToString(n)) == n
  {
    var s := NatToString(n);
    if n >= 10 {
      ShowValue(n / 10);
      assert s[..|s| - 1] == NatToString(n / 10);
    }
  }
}
