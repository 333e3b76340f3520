/**
 * The Python `str` operations the core relies on, over `seq<char>`:
 * `lower`, `strip`, `split`, `title`, `replace`, `in`, `join`, slicing and `str(int)`.
 * Case mapping covers ASCII letters only; whitespace is Python's full `str.isspace` set.
 */
module Text {
  import opened Wrappers

  // ---------------------------------------------------------------- characters

  /** `c.isspace()`: the characters `str.split()` and `str.strip()` treat as whitespace. */
  predicate IsSpace(c: char) {
    || ('\t' <= c <= '\r')
    || ('\U{1C}' <= c <= '\U{1F}')
    || c == ' ' || c == '\U{85}' || c == '\U{A0}' || c == '\U{1680}'
    || ('\U{2000}' <= c <= '\U{200A}')
    || c == '\U{2028}' || c == '\U{2029}' || c == '\U{202F}' || c == '\U{205F}' || c == '\U{3000}'
  }

  predicate IsUpper(c: char) { 'A' <= c <= 'Z' }

  predicate IsLetter(c: char) { IsUpper(c) || ('a' <= c <= 'z') }

  predicate IsDigit(c: char) { '0' <= c <= '9' }

  function LowerChar(c: char): char {
    if IsUpper(c) then (c as int + 32) as char else c
  }

  function UpperChar(c: char): char {
    if 'a' <= c <= 'z' then (c as int - 32) as char else c
  }

  // ---------------------------------------------------------------- case mapping

  /** `s.lower()`. */
  function Lower(s: string): (r: string)
    ensures |r| == |s|
    ensures forall i :: 0 <= i < |s| ==> r[i] == LowerChar(s[i])
  {
    if s == [] then [] else [LowerChar(s[0])] + Lower(s[1..])
  }

  /** No character of `s` is an upper-case letter. */
  predicate IsLowercase(s: string) {
    forall i :: 0 <= i < |s| ==> !IsUpper(s[i])
  }

  /** Lower-casing changes exactly the strings that hold an upper-case letter. */
  lemma LowerFixedIff(s: string)
    ensures Lower(s) == s <==> IsLowercase(s)
  {
    if Lower(s) == s {
      forall i | 0 <= i < |s| ensures !IsUpper(s[i]) {
        assert Lower(s)[i] == LowerChar(s[i]);
      }
    }
  }

  /** The result of `lower()` has no upper-case letter, so `lower()` is idempotent. */
  lemma LowerIsLowercase(s: string)
    ensures IsLowercase(Lower(s))
    ensures Lower(Lower(s)) == Lower(s)
  {
    LowerFixedIff(Lower(s));
  }

  /** `s.title()`: a letter is raised when it does not follow a letter and lowered when it does. */
  function Title(s: string): (r: string)
    ensures |r| == |s|
    ensures forall i :: 0 <= i < |s| ==> (IsLetter(r[i]) <==> IsLetter(s[i]))
    ensures forall i :: 0 <= i < |s| && !IsLetter(s[i]) ==> r[i] == s[i]
  {
    TitleAfter(s, false)
  }

  function TitleAfter(s: string, afterLetter: bool): (r: string)
    ensures |r| == |s|
    ensures forall i :: 0 <= i < |s| ==> (IsLetter(r[i]) <==> IsLetter(s[i]))
    ensures forall i :: 0 <= i < |s| && !IsLetter(s[i]) ==> r[i] == s[i]
  {
    if s == [] then []
    else [if !IsLetter(s[0]) then s[0] else if afterLetter then LowerChar(s[0]) else UpperChar(s[0])]
         + TitleAfter(s[1..], IsLetter(s[0]))
  }

  /** `s.replace(a, b)` for single characters `a` and `b`. */
  function ReplaceChar(s: string, a: char, b: char): (r: string)
    ensures |r| == |s|
    ensures forall i :: 0 <= i < |s| ==> r[i] == (if s[i] == a then b else s[i])
  {
    if s == [] then [] else [if s[0] == a then b else s[0]] + ReplaceChar(s[1..], a, b)
  }

  // ---------------------------------------------------------------- substrings

  predicate StartsWith(s: string, p: string) {
    |p| <= |s| && s[..|p|] == p
  }

  predicate EndsWith(s: string, p: string) {
    |p| <= |s| && s[|s| - |p|..] == p
  }

  /** `sub in s`. */
  predicate Contains(s: string, sub: string)
    decreases |s|
  {
    StartsWith(s, sub) || (s != [] && Contains(s[1..], sub))
  }

  /** `sub` occurs in `s` at offset `i`. */
  predicate OccursAt(s: string, sub: string, i: int) {
    0 <= i <= |s| - |sub| && s[i..i + |sub|] == sub
  }

  lemma AppendAssoc(a: string, b: string, c: string)
    ensures a + b + c == a + (b + c)
  {
  }

  /** A prefix stays a prefix when text is appended. */
  lemma StartsWithAppend(s: string, t: string, p: string)
    requires StartsWith(s, p)
    ensures StartsWith(s + t, p)
  {
    assert (s + t)[..|p|] == s[..|p|];
  }

  /** The appended text ends the result. */
  lemma EndsWithAppend(s: string, t: string)
    ensures EndsWith(s + t, t)
  {
    assert (s + t)[|s|..] == t;
  }

  /** Appended text occurs right after what precedes it. */
  lemma OccursAtEnd(s: string, sub: string)
    ensures OccursAt(s + sub, sub, |s|)
  {
    assert (s + sub)[|s|..|s| + |sub|] == sub;
  }

  /** An occurrence survives appending text. */
  lemma OccursAtExtend(s: string, t: string, sub: string, i: int)
    requires OccursAt(s, sub, i)
    ensures OccursAt(s + t, sub, i)
  {
    assert (s + t)[i..i + |sub|] == s[i..i + |sub|];
  }

  /** `sub in s` holds exactly when `sub` occurs at some offset of `s`. */
  lemma {:induction false} ContainsIff(s: string, sub: string)
    ensures Contains(s, sub) <==> exists i :: OccursAt(s, sub, i)
  {
    if s != [] {
      ContainsIff(s[1..], sub);
      if StartsWith(s, sub) {
        assert OccursAt(s, sub, 0);
      }
      if Contains(s[1..], sub) {
        var i :| OccursAt(s[1..], sub, i);
        assert s[1..][i..i + |sub|] == s[i + 1..i + 1 + |sub|];
        assert OccursAt(s, sub, i + 1);
      }
      if i :| OccursAt(s, sub, i) {
        if i > 0 {
          assert s[1..][i - 1..i - 1 + |sub|] == s[i..i + |sub|];
          assert OccursAt(s[1..], sub, i - 1);
        } else {
          assert StartsWith(s, sub);
        }
      }
    } else {
      if i :| OccursAt(s, sub, i) {
        assert sub == [];
        assert StartsWith(s, sub);
      }
      if Contains(s, sub) {
        assert OccursAt(s, sub, 0);
      }
    }
  }

  /** A string contains every string it ends with. */
  lemma {:induction false} ContainsSuffix(s: string, p: string)
    requires EndsWith(s, p)
    ensures Contains(s, p)
  {
    ContainsIff(s, p);
    assert OccursAt(s, p, |s| - |p|);
  }

  /** A string occurring in `b` occurs in every `a + b`. */
  lemma {:induction false} ContainsInRight(a: string, b: string, sub: string)
    requires Contains(b, sub)
    ensures Contains(a + b, sub)
  {
    ContainsIff(b, sub);
    var i :| OccursAt(b, sub, i);
    assert (a + b)[|a| + i..|a| + i + |sub|] == b[i..i + |sub|];
    assert OccursAt(a + b, sub, |a| + i);
    ContainsIff(a + b, sub);
  }

  /** A string occurring in `a` occurs in every `a + b`. */
  lemma {:induction false} ContainsInLeft(a: string, b: string, sub: string)
    requires Contains(a, sub)
    ensures Contains(a + b, sub)
  {
    ContainsIff(a, sub);
    var i :| OccursAt(a, sub, i);
    assert (a + b)[i..i + |sub|] == a[i..i + |sub|];
    assert OccursAt(a + b, sub, i);
    ContainsIff(a + b, sub);
  }

  /** What occurs in a substring occurs in the whole. */
  lemma ContainsIn(s: string, mid: string, sub: string)
    requires Contains(s, mid) && Contains(mid, sub)
    ensures Contains(s, sub)
  {
    ContainsIff(s, mid);
    ContainsIff(mid, sub);
    var i :| OccursAt(s, mid, i);
    var j :| OccursAt(mid, sub, j);
    forall k | 0 <= k < |sub| ensures s[i + j + k] == sub[k] {
      assert s[i..i + |mid|][j + k] == mid[j + k];
      assert mid[j..j + |sub|][k] == sub[k];
    }
    assert s[i + j..i + j + |sub|] == sub;
    assert OccursAt(s, sub, i + j);
    ContainsIff(s, sub);
  }

  lemma ContainsSelf(s: string)
    ensures Contains(s, s)
  {
    assert StartsWith(s, s);
  }

  /** What occurs in either half occurs in the concatenation. */
  lemma ContainsInEither(a: string, b: string, sub: string)
    requires Contains(a, sub) || Contains(b, sub)
    ensures Contains(a + b, sub)
  {
    if Contains(a, sub) {
      ContainsInLeft(a, b, sub);
    } else {
      ContainsInRight(a, b, sub);
    }
  }

  /** `any(k in s for k in keys)`. */
  predicate ContainsAny(s: string, keys: seq<string>) {
    exists k :: k in keys && Contains(s, k)
  }

  /** `s.replace(p, "")`: occurrences of `p` found scanning left to right are removed. */
  function RemoveAll(s: string, p: string): (r: string)
    requires p != []
    ensures |r| <= |s|
    decreases |s|
  {
    if s == [] then []
    else if StartsWith(s, p) then RemoveAll(s[|p|..], p)
    else [s[0]] + RemoveAll(s[1..], p)
  }

  /** Removing a string that does not occur changes nothing. */
  lemma {:induction false} RemoveAllAbsent(s: string, p: string)
    requires p != [] && !Contains(s, p)
    ensures RemoveAll(s, p) == s
  {
    if s != [] {
      RemoveAllAbsent(s[1..], p);
    }
  }

  /** Removing text never introduces an upper-case letter. */
  lemma {:induction false} RemoveAllLowercase(s: string, p: string)
    requires p != [] && IsLowercase(s)
    ensures IsLowercase(RemoveAll(s, p))
  {
    if s != [] {
      if StartsWith(s, p) {
        RemoveAllLowercase(s[|p|..], p);
      } else {
        RemoveAllLowercase(s[1..], p);
        assert !IsUpper(s[0]);
      }
    }
  }

  /** Removes the phrases one after the other, in order (a chain of `.replace(p, "")`). */
  function RemoveEach(s: string, phrases: seq<string>): (r: string)
    requires forall i :: 0 <= i < |phrases| ==> phrases[i] != []
    ensures |r| <= |s|
    decreases |phrases|
  {
    if phrases == [] then s else RemoveEach(RemoveAll(s, phrases[0]), phrases[1..])
  }

  lemma {:induction false} RemoveEachLowercase(s: string, phrases: seq<string>)
    requires forall i :: 0 <= i < |phrases| ==> phrases[i] != []
    requires IsLowercase(s)
    ensures IsLowercase(RemoveEach(s, phrases))
    decreases |phrases|
  {
    if phrases != [] {
      RemoveAllLowercase(s, phrases[0]);
      RemoveEachLowercase(RemoveAll(s, phrases[0]), phrases[1..]);
    }
  }

  /** Removing phrases that do not occur changes nothing. */
  lemma {:induction false} RemoveEachAbsent(s: string, phrases: seq<string>)
    requires forall i :: 0 <= i < |phrases| ==> phrases[i] != [] && !Contains(s, phrases[i])
    ensures RemoveEach(s, phrases) == s
    decreases |phrases|
  {
    if phrases != [] {
      RemoveAllAbsent(s, phrases[0]);
      RemoveEachAbsent(s, phrases[1..]);
    }
  }

  // ---------------------------------------------------------------- whitespace

  predicate AllSpace(s: string) {
    forall i :: 0 <= i < |s| ==> IsSpace(s[i])
  }

  predicate NoSpace(s: string) {
    forall i :: 0 <= i < |s| ==> !IsSpace(s[i])
  }

  /** `s.lstrip()`: drops the leading whitespace and nothing else. */
  function TrimStart(s: string): (r: string)
    ensures |r| <= |s| && r == s[|s| - |r|..]
    ensures AllSpace(s[..|s| - |r|])
    ensures r == [] || !IsSpace(r[0])
  {
    if s != [] && IsSpace(s[0]) then
      var r := TrimStart(s[1..]);
      TrimStartStep(s, r);
      r
    else s
  }

  /** A suffix of `s[1..]` after spaces is a suffix of `s` after spaces when `s[0]` is a space. */
  lemma TrimStartStep(s: string, r: string)
    requires s != [] && IsSpace(s[0])
    requires |r| <= |s| - 1 && r == s[1..][|s| - 1 - |r|..] && AllSpace(s[1..][..|s| - 1 - |r|])
    ensures r == s[|s| - |r|..] && AllSpace(s[..|s| - |r|])
  {
    var n := |s| - |r|;
    assert s[1..][n - 1..] == s[n..];
    forall k | 0 <= k < n ensures IsSpace(s[..n][k]) {
      if k > 0 {
        assert s[..n][k] == s[1..][..n - 1][k - 1];
      }
    }
  }

  /** `s.rstrip()`: drops the trailing whitespace and nothing else. */
  function TrimEnd(s: string): (r: string)
    ensures |r| <= |s| && r == s[..|r|]
    ensures AllSpace(s[|r|..])
    ensures r == [] || !IsSpace(r[|r| - 1])
  {
    if s != [] && IsSpace(s[|s| - 1]) then
      var r := TrimEnd(s[..|s| - 1]);
      TrimEndStep(s, r);
      r
    else s
  }

  /** A prefix of `s[..|s| - 1]` before spaces is a prefix of `s` before spaces when the last
      character of `s` is a space. */
  lemma TrimEndStep(s: string, r: string)
    requires s != [] && IsSpace(s[|s| - 1])
    requires |r| <= |s| - 1 && r == s[..|s| - 1][..|r|] && AllSpace(s[..|s| - 1][|r|..])
    ensures r == s[..|r|] && AllSpace(s[|r|..])
  {
    var n := |r|;
    assert s[..|s| - 1][..n] == s[..n];
    forall k | n <= k < |s| ensures IsSpace(s[k]) {
      if k < |s| - 1 {
        assert s[k] == s[..|s| - 1][n..][k - n];
      }
    }
  }

  /** `s.strip()`. */
  function Strip(s: string): (r: string)
    ensures |r| <= |s|
    ensures r == [] || (!IsSpace(r[0]) && !IsSpace(r[|r| - 1]))
  {
    TrimEnd(TrimStart(s))
  }

  /** `strip()` is empty exactly for all-whitespace input. */
  lemma StripEmptyIff(s: string)
    ensures Strip(s) == [] <==> AllSpace(s)
  {
    var t := TrimStart(s);
    if AllSpace(s) {
      AllSpaceTrimStart(s);
    }
    if Strip(s) == [] {
      assert AllSpace(t[0..]);
      assert s == s[..|s| - |t|] + t;
    }
  }

  lemma {:induction false} AllSpaceTrimStart(s: string)
    requires AllSpace(s)
    ensures TrimStart(s) == []
  {
    if s != [] {
      AllSpaceTrimStart(s[1..]);
    }
  }

  /** Stripping keeps a lower-case string lower-case. */
  lemma StripLowercase(s: string)
    requires IsLowercase(s)
    ensures IsLowercase(Strip(s))
  {
    var t := TrimStart(s);
    SliceLowercase(s, |s| - |t|, |s|);
    assert t == s[|s| - |t|..|s|];
    var r := TrimEnd(t);
    SliceLowercase(t, 0, |r|);
    assert r == t[0..|r|];
    assert Strip(s) == r;
  }

  lemma SliceLowercase(s: string, i: int, j: int)
    requires IsLowercase(s) && 0 <= i <= j <= |s|
    ensures IsLowercase(s[i..j])
  {
    forall k | 0 <= k < j - i ensures !IsUpper(s[i..j][k]) {
      assert s[i..j][k] == s[i + k];
    }
  }

  /** A string that neither starts nor ends with whitespace is its own `strip()`. */
  lemma StripUnpadded(s: string)
    requires s == [] || (!IsSpace(s[0]) && !IsSpace(s[|s| - 1]))
    ensures Strip(s) == s
  {
  }

  /** Stripping twice is stripping once. */
  lemma StripIdempotent(s: string)
    ensures Strip(Strip(s)) == Strip(s)
  {
    var r := Strip(s);
    assert TrimStart(r) == r;
    assert TrimEnd(r) == r;
  }

  // ---------------------------------------------------------------- join and split

  /** `sep.join(xs)`. */
  function Join(sep: string, xs: seq<string>): string {
    if xs == [] then [] else if |xs| == 1 then xs[0] else xs[0] + sep + Join(sep, xs[1..])
  }

  lemma JoinHead(sep: string, xs: seq<string>)
    requires xs != [] && xs[0] != []
    ensures Join(sep, xs) != [] && Join(sep, xs)[0] == xs[0][0]
  {
  }

  /** Every item occurs in the joined text. */
  lemma {:induction false} JoinContains(sep: string, xs: seq<string>, i: int)
    requires 0 <= i < |xs|
    ensures Contains(Join(sep, xs), xs[i])
  {
    if |xs| == 1 {
      ContainsSelf(xs[0]);
    } else if i == 0 {
      ContainsSelf(xs[0]);
      ContainsInLeft(xs[0], sep, xs[0]);
      ContainsInLeft(xs[0] + sep, Join(sep, xs[1..]), xs[0]);
    } else {
      JoinContains(sep, xs[1..], i - 1);
      ContainsInRight(xs[0] + sep, Join(sep, xs[1..]), xs[i]);
    }
  }

  /** `s.split(c)` for a one-character separator; `"".split(",") == [""]`. */
  function Split(s: string, c: char): (r: seq<string>)
    ensures |r| > 0
    ensures forall i :: 0 <= i < |r| ==> c !in r[i]
  {
    if s == [] then [[]]
    else if s[0] == c then [[]] + Split(s[1..], c)
    else
      var rest := Split(s[1..], c);
      [[s[0]] + rest[0]] + rest[1..]
  }

  /** Splitting a string that starts with a separator-free part `x`. */
  lemma {:induction false} SplitPrefix(x: string, t: string, c: char)
    requires c !in x
    ensures Split(x + t, c) == [x + Split(t, c)[0]] + Split(t, c)[1..]
  {
    if x != [] {
      SplitPrefix(x[1..], t, c);
      assert (x + t)[1..] == x[1..] + t;
      assert [x[0]] + (x[1..] + Split(t, c)[0]) == x + Split(t, c)[0];
    } else {
      assert x + t == t;
      assert x + Split(t, c)[0] == Split(t, c)[0];
      assert Split(t, c) == [Split(t, c)[0]] + Split(t, c)[1..];
    }
  }

  /** `s.split(c)` undoes `c.join(xs)` when no part holds the separator. */
  lemma {:induction false} SplitJoin(xs: seq<string>, c: char)
    requires |xs| > 0
    requires forall i :: 0 <= i < |xs| ==> c !in xs[i]
    ensures Split(Join([c], xs), c) == xs
  {
    if |xs| == 1 {
      SplitPrefix(xs[0], [], c);
      assert xs[0] + [] == xs[0];
    } else {
      var t := Join([c], xs[1..]);
      SplitJoin(xs[1..], c);
      assert Join([c], xs) == xs[0] + ([c] + t);
      SplitPrefix(xs[0], [c] + t, c);
      assert ([c] + t)[1..] == t;
      assert Split([c] + t, c) == [[]] + xs[1..];
      assert xs[0] + [] == xs[0];
    }
  }

  /** `c.join(s.split(c))` gives back `s`. */
  lemma {:induction false} JoinSplit(s: string, c: char)
    ensures Join([c], Split(s, c)) == s
  {
    if s != [] {
      JoinSplit(s[1..], c);
      var rest := Split(s[1..], c);
      if s[0] == c {
        assert Join([c], [[]] + rest) == [] + [c] + Join([c], rest);
      } else {
        var r := [[s[0]] + rest[0]] + rest[1..];
        if |rest| == 1 {
          assert Join([c], r) == [s[0]] + rest[0];
        } else {
          assert Join([c], r) == [s[0]] + rest[0] + [c] + Join([c], rest[1..]);
          assert Join([c], rest) == rest[0] + [c] + Join([c], rest[1..]);
        }
      }
    }
  }

  /** Splitting a string by its first character. */
  lemma SplitCons(x: char, t: string, c: char)
    ensures Split([x] + t, c)
         == if x == c then [[]] + Split(t, c) else [[x] + Split(t, c)[0]] + Split(t, c)[1..]
  {
    assert ([x] + t)[0] == x && ([x] + t)[1..] == t;
  }

  /** Splitting at a separator placed between `a` and `b` splits each side on its own. */
  lemma {:induction false} SplitConcat(a: string, b: string, c: char)
    ensures Split(a + [c] + b, c) == Split(a, c) + Split(b, c)
  {
    if a == [] {
      assert a + [c] + b == [c] + b;
      SplitCons(c, b, c);
    } else {
      var t := a[1..] + [c] + b;
      assert a + [c] + b == [a[0]] + t;
      assert a == [a[0]] + a[1..];
      SplitConcat(a[1..], b, c);
      SplitCons(a[0], t, c);
      SplitCons(a[0], a[1..], c);
      if a[0] != c {
        SplitConcatHead(a[0], Split(a[1..], c), Split(b, c));
      }
    }
  }

  lemma SplitConcatHead(x: char, ra: seq<string>, rb: seq<string>)
    requires |ra| > 0
    ensures [[x] + (ra + rb)[0]] + (ra + rb)[1..] == ([[x] + ra[0]] + ra[1..]) + rb
  {
    assert (ra + rb)[0] == ra[0];
    assert (ra + rb)[1..] == ra[1..] + rb;
  }

  /** The "• " that starts every bullet line the agent writes. */
  const Bullet: string := "\U{2022} "

  /** `[prefix + x for x in xs]`. */
  function Bulleted(prefix: string, xs: seq<string>): (r: seq<string>)
    ensures |r| == |xs|
    ensures forall i :: 0 <= i < |xs| ==> r[i] == prefix + xs[i]
  {
    seq(|xs|, i requires 0 <= i < |xs| => prefix + xs[i])
  }

  /** `chr(10).join(f"{prefix}{x}" for x in xs)`. */
  function BulletList(prefix: string, xs: seq<string>): string {
    Join("\n", Bulleted(prefix, xs))
  }

  /** A bullet list has exactly one line per item, in order (one empty line for no item). */
  lemma BulletListLines(prefix: string, xs: seq<string>)
    requires '\n' !in prefix
    requires forall i :: 0 <= i < |xs| ==> '\n' !in xs[i]
    ensures Split(BulletList(prefix, xs), '\n') == if xs == [] then [[]] else Bulleted(prefix, xs)
  {
    assert "\n" == ['\n'];
    var b := Bulleted(prefix, xs);
    if xs != [] {
      forall i | 0 <= i < |b| ensures '\n' !in b[i] {
        assert b[i] == prefix + xs[i];
      }
      SplitJoin(b, '\n');
    }
  }

  /** A string without the separator splits into itself alone. */
  lemma SplitNoSeparator(x: string, c: char)
    requires c !in x
    ensures Split(x, c) == [x]
  {
    SplitPrefix(x, [], c);
    assert x + [] == x;
  }

  /** `"".join(parts)`. */
  function Concat(parts: seq<string>): string {
    if parts == [] then [] else parts[0] + Concat(parts[1..])
  }

  /** Every part occurs in the concatenation. */
  lemma {:induction false} ConcatContains(parts: seq<string>, i: int)
    requires 0 <= i < |parts|
    ensures Contains(Concat(parts), parts[i])
  {
    if i == 0 {
      StartsWithAppend(parts[0], Concat(parts[1..]), parts[0]);
      assert Concat(parts) == parts[0] + Concat(parts[1..]);
    } else {
      ConcatContains(parts[1..], i - 1);
      ContainsInRight(parts[0], Concat(parts[1..]), parts[i]);
    }
  }

  /** Every line occurs in the text written line by line. */
  lemma LinesContains(ls: seq<string>, i: int)
    requires 0 <= i < |ls|
    ensures Contains(Lines(ls), ls[i])
  {
    var f := seq(|ls|, k requires 0 <= k < |ls| => ls[k] + "\n");
    ConcatContains(f, i);
    StartsWithAppend(ls[i], "\n", ls[i]);
    ContainsIff(f[i], ls[i]);
    assert OccursAt(f[i], ls[i], 0);
    ContainsIn(Concat(f), f[i], ls[i]);
  }

  /** Appending one more part appends its text. */
  lemma {:induction false} ConcatSnoc(parts: seq<string>, p: string)
    ensures Concat(parts + [p]) == Concat(parts) + p
  {
    if parts != [] {
      assert (parts + [p])[1..] == parts[1..] + [p];
      ConcatSnoc(parts[1..], p);
    } else {
      assert Concat([p]) == p + Concat([]);
    }
  }

  /** Each string followed by a newline, all concatenated (text built with `+= line + "\n"`). */
  function Lines(ls: seq<string>): string {
    Concat(seq(|ls|, i requires 0 <= i < |ls| => ls[i] + "\n"))
  }

  /** Appending one more line. */
  lemma LinesSnoc(ls: seq<string>, l: string)
    ensures Lines(ls + [l]) == Lines(ls) + (l + "\n")
  {
    var f := seq(|ls|, i requires 0 <= i < |ls| => ls[i] + "\n");
    assert seq(|ls + [l]|, i requires 0 <= i < |ls + [l]| => (ls + [l])[i] + "\n") == f + [l + "\n"];
    ConcatSnoc(f, l + "\n");
  }

  /** Text written line by line splits back into its lines, plus the empty rest after the last newline. */
  lemma {:induction false} LinesSplit(ls: seq<string>)
    requires forall i :: 0 <= i < |ls| ==> '\n' !in ls[i]
    ensures Split(Lines(ls), '\n') == ls + [[]]
  {
    assert "\n" == ['\n'];
    if ls == [] {
      assert Lines(ls) == [];
    } else {
      var rest := ls[1..];
      LinesSplit(rest);
      var f := seq(|ls|, i requires 0 <= i < |ls| => ls[i] + "\n");
      assert f[1..] == seq(|rest|, i requires 0 <= i < |rest| => rest[i] + "\n");
      assert Lines(ls) == ls[0] + ['\n'] + Lines(rest);
      SplitConcat(ls[0], Lines(rest), '\n');
      SplitNoSeparator(ls[0], '\n');
      assert ls == [ls[0]] + rest;
    }
  }

  /** The longest prefix of `s` without whitespace. */
  function WordAt(s: string): (r: string)
    ensures |r| <= |s| && r == s[..|r|] && NoSpace(r)
    ensures |r| == |s| || IsSpace(s[|r|])
    ensures s != [] && !IsSpace(s[0]) ==> r != []
  {
    if s == [] || IsSpace(s[0]) then [] else [s[0]] + WordAt(s[1..])
  }

  /** `s.split()`: the maximal runs of non-whitespace characters, in order. */
  function Words(s: string): seq<string>
    decreases |s|
  {
    if s == [] then []
    else if IsSpace(s[0]) then Words(s[1..])
    else
      var w := WordAt(s);
      [w] + Words(s[|w|..])
  }

  /** Every word is non-empty and holds no whitespace. */
  lemma {:induction false} WordsWellFormed(s: string)
    ensures forall i :: 0 <= i < |Words(s)| ==> Words(s)[i] != [] && NoSpace(Words(s)[i])
    decreases |s|
  {
    if s != [] {
      if IsSpace(s[0]) {
        WordsWellFormed(s[1..]);
      } else {
        var w := WordAt(s);
        WordsWellFormed(s[|w|..]);
        var rest := Words(s[|w|..]);
        assert Words(s) == [w] + rest;
        assert forall i :: 1 <= i < |[w] + rest| ==> ([w] + rest)[i] == rest[i - 1];
      }
    }
  }

  /** The first word of a separator-free word followed by a space is that word. */
  lemma {:induction false} WordAtSpaced(w: string, rest: string)
    requires NoSpace(w)
    ensures WordAt(w + " " + rest) == w
  {
    if w != [] {
      assert NoSpace(w[1..]);
      WordAtSpaced(w[1..], rest);
      assert (w + " " + rest)[1..] == w[1..] + " " + rest;
    }
  }

  /** `(w + " " + rest).split()` is `w` followed by the words of `rest`. */
  lemma WordsCons(w: string, rest: string)
    requires w != [] && NoSpace(w)
    ensures Words(w + " " + rest) == [w] + Words(rest)
  {
    var s := w + " " + rest;
    WordAtSpaced(w, rest);
    assert s[|w|..] == " " + rest;
    assert (" " + rest)[1..] == rest;
  }

  // ---------------------------------------------------------------- slicing and numbers

  function Min(a: int, b: int): int { if a <= b then a else b }

  function Max(a: int, b: int): int { if a >= b then a else b }

  /** `s[:n]`, Python's slice with only an upper bound (a negative `n` counts from the end). */
  function Take<T>(s: seq<T>, n: int): (r: seq<T>)
    ensures |r| == if n >= 0 then Min(n, |s|) else Max(|s| + n, 0)
    ensures r == s[..|r|]
  {
    if n >= |s| then s else if n >= 0 then s[..n] else if |s| + n >= 0 then s[..|s| + n] else []
  }

  function DigitChar(d: int): char
    requires 0 <= d < 10
  {
    ('0' as int + d) as char
  }

  function NatToString(n: nat): (r: string)
    ensures r != [] && forall i :: 0 <= i < |r| ==> IsDigit(r[i])
  {
    if n < 10 then [DigitChar(n)] else NatToString(n / 10) + [DigitChar(n % 10)]
  }

  /** `str(n)` for a Python `int`. */
  function IntToString(n: int): (r: string)
    ensures r != []
  {
    if n < 0 then "-" + NatToString(-n) else NatToString(n)
  }

  /** The value of a non-empty string of decimal digits. */
  function DecimalValue(s: string): nat
    requires s != [] && forall i :: 0 <= i < |s| ==> IsDigit(s[i])
  {
    assert IsDigit(s[|s| - 1]);
    var last := s[|s| - 1] as int - '0' as int;
    if |s| == 1 then last else DecimalValue(s[..|s| - 1]) * 10 + last
  }

  /** Reads back a decimal integer as `str(int)` writes it; `None` for anything else. */
  function ParseDecimal(s: string): Option<int> {
    if s != [] && forall i :: 0 <= i < |s| ==> IsDigit(s[i]) then Some(DecimalValue(s))
    else if |s| > 1 && s[0] == '-' && forall i :: 1 <= i < |s| ==> IsDigit(s[i]) then
      var v: int := DecimalValue(s[1..]);
      Some(-v)
    else None
  }

  lemma {:induction false} DecimalValueOfNat(n: nat)
    ensures DecimalValue(NatToString(n)) == n
  {
    if n >= 10 {
      DecimalValueOfNat(n / 10);
      var s := NatToString(n);
      assert s[..|s| - 1] == NatToString(n / 10);
    }
  }

  /** `str(n)` is read back as `n`: the decimal rendering loses nothing. */
  lemma ParseIntToString(n: int)
    ensures ParseDecimal(IntToString(n)) == Some(n)
  {
    if n < 0 {
      ParseNegative(-n);
    } else {
      DecimalValueOfNat(n);
    }
  }

  lemma ParseNegative(m: nat)
    requires m > 0
    ensures ParseDecimal("-" + NatToString(m)) == Some(-(m as int))
  {
    var d := NatToString(m);
    var s := "-" + d;
    assert s[1..] == d;
    assert !IsDigit(s[0]);
    DecimalValueOfNat(m);
    forall i | 1 <= i < |s| ensures IsDigit(s[i]) {
      assert s[i] == d[i - 1];
    }
  }

  /** A decimal rendering holds only digits and a leading minus sign. */
  lemma IntToStringChars(n: int, c: char)
    requires c != '-' && !IsDigit(c)
    ensures c !in IntToString(n)
  {
    var s := IntToString(n);
    if n < 0 {
      assert s == "-" + NatToString(-n);
      assert forall i :: 1 <= i < |s| ==> IsDigit(s[i]);
    }
  }
}
