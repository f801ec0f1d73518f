/**
 * Python string behaviour that the bot relies on: `str.isspace`, `str.split`
 * with `maxsplit`, `str.strip`, `int(str)` for decimal text and `str(int)`.
 */
module Strings {
  import opened Wrappers

  /** The characters Python's `str.isspace` accepts; `split()` and `strip()` break on exactly these. */
  predicate IsSpace(c: char) {
    || ('\t' <= c <= '\r')
    || ('\U{1c}' <= c <= '\U{1f}')
    || c == ' ' || c == '\U{85}' || c == '\U{a0}' || c == '\U{1680}'
    || ('\U{2000}' <= c <= '\U{200a}')
    || c == '\U{2028}' || c == '\U{2029}' || c == '\U{202f}' || c == '\U{205f}' || c == '\U{3000}'
  }

  predicate IsBlank(s: string) {
    forall i :: 0 <= i < |s| ==> IsSpace(s[i])
  }

  predicate NoSpace(s: string) {
    forall i :: 0 <= i < |s| ==> !IsSpace(s[i])
  }

  /** The first index at or after `i` that is not whitespace (or the end). */
  function SkipSpace(s: string, i: nat): (j: nat)
    requires i <= |s|
    ensures i <= j <= |s|
    ensures j == |s| || !IsSpace(s[j])
    decreases |s| - i
  {
    if i == |s| || !IsSpace(s[i]) then i else SkipSpace(s, i + 1)
  }

  /** Everything `SkipSpace` skips is whitespace. */
  lemma {:induction false} SkipSpaceSkips(s: string, i: nat)
    requires i <= |s|
    ensures forall k :: i <= k < SkipSpace(s, i) ==> IsSpace(s[k])
    decreases |s| - i
  {
    if i < |s| && IsSpace(s[i]) {
      SkipSpaceSkips(s, i + 1);
    }
  }

  /** The first index at or after `i` that is whitespace (or the end). */
  function SkipWord(s: string, i: nat): (j: nat)
    requires i <= |s|
    ensures i <= j <= |s|
    ensures j == |s| || IsSpace(s[j])
    decreases |s| - i
  {
    if i == |s| || IsSpace(s[i]) then i else SkipWord(s, i + 1)
  }

  /** Nothing `SkipWord` skips is whitespace. */
  lemma {:induction false} SkipWordSkips(s: string, i: nat)
    requires i <= |s|
    ensures forall k :: i <= k < SkipWord(s, i) ==> !IsSpace(s[k])
    decreases |s| - i
  {
    if i < |s| && !IsSpace(s[i]) {
      SkipWordSkips(s, i + 1);
    }
  }

  /** One past the last index before `j` that is not whitespace (or 0). */
  function BackSpace(s: string, j: nat): (i: nat)
    requires j <= |s|
    ensures i <= j
    ensures i == 0 || !IsSpace(s[i - 1])
    ensures forall k :: i <= k < j ==> IsSpace(s[k])
  {
    if j == 0 || !IsSpace(s[j - 1]) then j else BackSpace(s, j - 1)
  }

  /**
   * `s.strip()`: the text with its leading and trailing whitespace removed,
   * that is, `s` is blank text, the result, and blank text again, and the
   * result neither starts nor ends with whitespace.
   */
  function Strip(s: string): (r: string)
    ensures r == [] || (!IsSpace(r[0]) && !IsSpace(r[|r| - 1]))
    ensures exists k :: 0 <= k <= |s| - |r| && s[k..k + |r|] == r && IsBlank(s[..k]) && IsBlank(s[k + |r|..])
  {
    var i := SkipSpace(s, 0);
    var j := BackSpace(s, |s|);
    SkipSpaceSkips(s, 0);
    if i < j then
      assert IsBlank(s[..i]) && IsBlank(s[j..]);
      s[i..j]
    else
      assert IsBlank(s[..0]) && IsBlank(s[0..]) by {
        assert s[0..] == s;
      }
      []
  }

  /**
   * `s[i:].split(maxsplit=n)` without a separator: whitespace runs separate
   * the parts, leading and trailing whitespace yields no empty part, and once
   * `n` splits are made the rest, after the whitespace that follows the last
   * split word, is one final part kept as it is (trailing whitespace included).
   */
  function SplitFrom(s: string, i: nat, maxsplit: nat): (parts: seq<string>)
    requires i <= |s|
    ensures |parts| <= maxsplit + 1
    decreases |s| - i
  {
    var j := SkipSpace(s, i);
    if j == |s| then []
    else if maxsplit == 0 then [s[j..]]
    else
      var k := SkipWord(s, j);
      [s[j..k]] + SplitFrom(s, k, maxsplit - 1)
  }

  /** `s.split(maxsplit=n)`. */
  function SplitMax(s: string, maxsplit: nat): (parts: seq<string>)
    ensures |parts| <= maxsplit + 1
  {
    SplitFrom(s, 0, maxsplit)
  }

  /**
   * The shape of a split: no part is empty or starts with whitespace, every
   * part but the last is one whole word, the last is one too unless all
   * `maxsplit` splits were used, and nothing comes out of blank text.
   */
  lemma {:induction false} SplitFromParts(s: string, i: nat, maxsplit: nat)
    requires i <= |s|
    ensures var parts := SplitFrom(s, i, maxsplit);
      && (parts == [] <==> IsBlank(s[i..]))
      && (forall n :: 0 <= n < |parts| ==> parts[n] != [] && !IsSpace(parts[n][0]))
      && (forall n :: 0 <= n < |parts| - 1 ==> NoSpace(parts[n]))
      && (|parts| <= maxsplit ==> forall n :: 0 <= n < |parts| ==> NoSpace(parts[n]))
    decreases |s| - i
  {
    var j := SkipSpace(s, i);
    var parts := SplitFrom(s, i, maxsplit);
    if j == |s| {
      assert IsBlank(s[i..]) by {
        SkipSpaceSkips(s, i);
      }
    } else {
      assert !IsBlank(s[i..]) by {
        assert s[i..][j - i] == s[j];
      }
      if maxsplit == 0 {
        assert parts == [s[j..]];
        assert parts[0][0] == s[j];
      } else {
        var k := SkipWord(s, j);
        var tail := SplitFrom(s, k, maxsplit - 1);
        SplitFromStep(s, i, j, k, maxsplit);
        assert NoSpace(s[j..k]) by {
          SkipWordSkips(s, j);
        }
        SplitFromParts(s, k, maxsplit - 1);
        ConsWord(s[j..k], tail, maxsplit);
      }
    }
  }

  /** A whole word in front of the shape of a split with one split fewer gives the shape of a split. */
  lemma ConsWord(w: string, tail: seq<string>, maxsplit: nat)
    requires maxsplit > 0 && w != [] && NoSpace(w)
    requires forall n :: 0 <= n < |tail| ==> tail[n] != [] && !IsSpace(tail[n][0])
    requires forall n :: 0 <= n < |tail| - 1 ==> NoSpace(tail[n])
    requires |tail| <= maxsplit - 1 ==> forall n :: 0 <= n < |tail| ==> NoSpace(tail[n])
    ensures var parts := [w] + tail;
      && (forall n :: 0 <= n < |parts| ==> parts[n] != [] && !IsSpace(parts[n][0]))
      && (forall n :: 0 <= n < |parts| - 1 ==> NoSpace(parts[n]))
      && (|parts| <= maxsplit ==> forall n :: 0 <= n < |parts| ==> NoSpace(parts[n]))
  {
    var parts := [w] + tail;
    forall n | 0 <= n < |parts| ensures parts[n] != [] && !IsSpace(parts[n][0]) {
      if n > 0 { assert parts[n] == tail[n - 1]; }
    }
    forall n | 0 <= n < |parts| - 1 || (|parts| <= maxsplit && 0 <= n < |parts|)
      ensures NoSpace(parts[n])
    {
      if n > 0 { assert parts[n] == tail[n - 1]; }
    }
  }

  lemma SplitMaxParts(s: string, maxsplit: nat)
    ensures var parts := SplitMax(s, maxsplit);
      && (parts == [] <==> IsBlank(s))
      && (forall n :: 0 <= n < |parts| ==> parts[n] != [] && !IsSpace(parts[n][0]))
      && (forall n :: 0 <= n < |parts| - 1 ==> NoSpace(parts[n]))
      && (|parts| <= maxsplit ==> forall n :: 0 <= n < |parts| ==> NoSpace(parts[n]))
  {
    SplitFromParts(s, 0, maxsplit);
    assert s[0..] == s;
  }

  /** Words joined by single spaces, as a user would type them. */
  function JoinSpaced(words: seq<string>): string {
    if words == [] then []
    else if |words| == 1 then words[0]
    else words[0] + " " + JoinSpaced(words[1..])
  }

  lemma JoinedStart(words: seq<string>)
    requires words != []
    requires forall n :: 0 <= n < |words| ==> words[n] != [] && NoSpace(words[n])
    ensures JoinSpaced(words) != [] && !IsSpace(JoinSpaced(words)[0])
  {
  }

  lemma {:induction false} JoinedEnd(words: seq<string>)
    requires words != []
    requires forall n :: 0 <= n < |words| ==> words[n] != [] && NoSpace(words[n])
    ensures JoinSpaced(words) != [] && !IsSpace(JoinSpaced(words)[|JoinSpaced(words)| - 1])
  {
    if |words| > 1 {
      JoinedEnd(words[1..]);
      var rest := JoinSpaced(words[1..]);
      assert JoinSpaced(words) == words[0] + " " + rest;
      assert JoinSpaced(words)[|JoinSpaced(words)| - 1] == rest[|rest| - 1];
    }
  }

  /** Stripping singly spaced words changes nothing. */
  lemma StripJoined(words: seq<string>)
    requires forall n :: 0 <= n < |words| ==> words[n] != [] && NoSpace(words[n])
    ensures Strip(JoinSpaced(words)) == JoinSpaced(words)
  {
    if words != [] {
      JoinedStart(words);
      JoinedEnd(words);
      StripKeeps(JoinSpaced(words));
    }
  }

  lemma SplitFromSpaced(s: string, i: nat, w: string, rest: string, maxsplit: nat)
    requires i <= |s| && s[i..] == w + " " + rest
    requires w != [] && NoSpace(w) && rest != [] && !IsSpace(rest[0]) && maxsplit > 0
    ensures i + |w| + 1 <= |s| && s[i + |w| + 1..] == rest
    ensures SplitFrom(s, i, maxsplit) == [w] + SplitFrom(s, i + |w| + 1, maxsplit - 1)
  {
    assert s[i..] == w + (" " + rest);
    SplitFromWord(s, i, w, " " + rest, maxsplit);
    assert s[i + |w|..] == " " + rest;
    assert s[i + |w| + 1..] == rest;
    SkipSpaceStep(s, i + |w|);
  }

  lemma SplitFromLastWord(s: string, i: nat, w: string, maxsplit: nat)
    requires i <= |s| && s[i..] == w && w != [] && NoSpace(w)
    ensures SplitFrom(s, i, maxsplit) == [w]
  {
    assert s[i] == w[0];
    assert SkipSpace(s, i) == i;
    if maxsplit > 0 {
      assert forall k :: i <= k < |s| ==> s[k] == w[k - i];
      SkipWordAll(s, i);
      assert SkipSpace(s, |s|) == |s|;
      assert SplitFrom(s, |s|, maxsplit - 1) == [];
      assert s[i..|s|] == w;
    }
  }

  lemma SkipWordAll(s: string, i: nat)
    requires i <= |s|
    requires forall k :: i <= k < |s| ==> !IsSpace(s[k])
    ensures SkipWord(s, i) == |s|
    decreases |s| - i
  {
    if i < |s| { SkipWordAll(s, i + 1); }
  }

  /** A word followed by more text is split off whole, the split going on from just after it. */
  lemma SplitFromWord(s: string, i: nat, w: string, rest: string, maxsplit: nat)
    requires i <= |s| && s[i..] == w + rest
    requires w != [] && NoSpace(w) && rest != [] && IsSpace(rest[0]) && maxsplit > 0
    ensures SplitFrom(s, i, maxsplit) == [w] + SplitFrom(s, i + |w|, maxsplit - 1)
  {
    var e := i + |w|;
    assert SkipSpace(s, i) == i by {
      assert s[i] == s[i..][0] == w[0];
    }
    assert SkipWord(s, i) == e by {
      assert forall k :: i <= k < e ==> s[k] == s[i..][k - i] == w[k - i];
      assert s[e] == s[i..][|w|] == rest[0];
      SkipWordStops(s, i, e);
    }
    assert s[i..e] == w by {
      assert s[i..e] == s[i..][..|w|];
    }
    SplitFromStep(s, i, i, e, maxsplit);
  }

  lemma SkipWordStops(s: string, i: nat, j: nat)
    requires i <= j < |s|
    requires forall k :: i <= k < j ==> !IsSpace(s[k])
    requires IsSpace(s[j])
    ensures SkipWord(s, i) == j
    decreases j - i
  {
  }

  lemma SkipSpaceStep(s: string, i: nat)
    requires i + 1 <= |s| && IsSpace(s[i]) && (i + 1 == |s| || !IsSpace(s[i + 1]))
    ensures SplitFrom(s, i, 0) == SplitFrom(s, i + 1, 0)
    ensures forall m: nat :: SplitFrom(s, i, m) == SplitFrom(s, i + 1, m)
  {
  }

  /** `s` continues, from index `d`, with exactly the characters of `q`. */
  predicate Continues(s: string, d: nat, q: string)
    decreases |q|
  {
    d + |q| == |s| && (q == [] || (s[d] == q[0] && Continues(s, d + 1, q[1..])))
  }

  lemma {:induction false} ContinuesAt(s: string, d: nat, q: string, x: nat)
    requires Continues(s, d, q) && x < |q|
    ensures s[d + x] == q[x]
    decreases x
  {
    if x > 0 {
      ContinuesAt(s, d + 1, q[1..], x - 1);
    }
  }

  lemma {:induction false} ContinuesAppend(p: string, q: string)
    ensures Continues(p + q, |p|, q)
    decreases |q|
  {
    if q != [] {
      ContinuesAppend(p + [q[0]], q[1..]);
      assert (p + [q[0]]) + q[1..] == p + q;
    }
  }

  lemma {:induction false} SkipSpaceShift(s: string, d: nat, q: string, j: nat)
    requires Continues(s, d, q) && j <= |q|
    ensures SkipSpace(s, d + j) == d + SkipSpace(q, j)
    decreases |q| - j
  {
    if j < |q| {
      ContinuesAt(s, d, q, j);
      if IsSpace(q[j]) {
        SkipSpaceShift(s, d, q, j + 1);
      }
    }
  }

  lemma {:induction false} SkipWordShift(s: string, d: nat, q: string, j: nat)
    requires Continues(s, d, q) && j <= |q|
    ensures SkipWord(s, d + j) == d + SkipWord(q, j)
    decreases |q| - j
  {
    if j < |q| {
      ContinuesAt(s, d, q, j);
      if !IsSpace(q[j]) {
        SkipWordShift(s, d, q, j + 1);
      }
    }
  }

  lemma SliceShift(s: string, d: nat, q: string, a: nat, b: nat)
    requires Continues(s, d, q) && a <= b <= |q|
    ensures s[d + a..d + b] == q[a..b]
  {
    forall x | 0 <= x < b - a ensures s[d + a..d + b][x] == q[a..b][x] {
      ContinuesAt(s, d, q, a + x);
    }
  }

  lemma ConsSame(a: seq<string>, b: seq<string>, x: string, y: string, ta: seq<string>, tb: seq<string>)
    requires a == [x] + ta && b == [y] + tb && x == y && ta == tb
    ensures a == b
  {
  }

  /** One step of a split with splits left: the word from `a` to `b`, then the split of what follows it. */
  lemma SplitFromStep(s: string, i: nat, a: nat, b: nat, maxsplit: nat)
    requires i <= |s| && SkipSpace(s, i) == a && a < |s| && SkipWord(s, a) == b && maxsplit > 0
    ensures SplitFrom(s, i, maxsplit) == [s[a..b]] + SplitFrom(s, b, maxsplit - 1)
  {
  }

  /** What comes before index `d` plays no part in splitting from there on. */
  lemma {:induction false} SplitFromShift(s: string, d: nat, q: string, j: nat, maxsplit: nat)
    requires Continues(s, d, q) && j <= |q|
    ensures SplitFrom(s, d + j, maxsplit) == SplitFrom(q, j, maxsplit)
    ensures j == 0 ==> SplitFrom(s, d, maxsplit) == SplitFrom(q, 0, maxsplit)
    decreases |q| - j
  {
    var k := SkipSpace(q, j);
    SkipSpaceShift(s, d, q, j);
    if k < |q| && maxsplit > 0 {
      var e := SkipWord(q, k);
      SplitFromShift(s, d, q, e, maxsplit - 1);
      ShiftWord(s, d, q, j, k, e, maxsplit);
    } else if k < |q| {
      ShiftRest(s, d, q, j, k);
    }
  }

  /** The shifted split is the same when the whitespace runs to the end or no split is left. */
  lemma ShiftRest(s: string, d: nat, q: string, j: nat, k: nat)
    requires Continues(s, d, q) && j <= k < |q|
    requires SkipSpace(q, j) == k && SkipSpace(s, d + j) == d + k
    ensures SplitFrom(s, d + j, 0) == SplitFrom(q, j, 0)
  {
    SliceShift(s, d, q, k, |q|);
    assert s[d + k..] == s[d + k..d + |q|];
    assert q[k..] == q[k..|q|];
  }

  /** The shifted split takes the same next word, given that the rest splits the same. */
  lemma ShiftWord(s: string, d: nat, q: string, j: nat, k: nat, e: nat, maxsplit: nat)
    requires Continues(s, d, q) && j <= k < |q| && maxsplit > 0
    requires SkipSpace(q, j) == k && SkipSpace(s, d + j) == d + k && SkipWord(q, k) == e
    requires SplitFrom(s, d + e, maxsplit - 1) == SplitFrom(q, e, maxsplit - 1)
    ensures SplitFrom(s, d + j, maxsplit) == SplitFrom(q, j, maxsplit)
  {
    SkipWordShift(s, d, q, k);
    SplitFromStep(s, d + j, d + k, d + e, maxsplit);
    SplitFromStep(q, j, k, e, maxsplit);
    SliceShift(s, d, q, k, e);
    ConsSame(SplitFrom(s, d + j, maxsplit), SplitFrom(q, j, maxsplit), s[d + k..d + e], q[k..e],
             SplitFrom(s, d + e, maxsplit - 1), SplitFrom(q, e, maxsplit - 1));
  }

  /** Words typed with single spaces split back into the same words (when at most `maxsplit + 1` of them). */
  lemma {:induction false} SplitJoined(words: seq<string>, maxsplit: nat)
    requires |words| <= maxsplit + 1
    requires forall n :: 0 <= n < |words| ==> words[n] != [] && NoSpace(words[n])
    ensures SplitMax(JoinSpaced(words), maxsplit) == words
    decreases |words|
  {
    var t := JoinSpaced(words);
    if |words| == 1 {
      assert t[0..] == t;
      SplitFromLastWord(t, 0, words[0], maxsplit);
      assert words == [words[0]];
    } else if |words| > 1 {
      var w, rest := words[0], words[1..];
      assert forall n :: 0 <= n < |rest| ==> rest[n] != [] && NoSpace(rest[n]) by {
        forall n | 0 <= n < |rest| ensures rest[n] != [] && NoSpace(rest[n]) {
          assert rest[n] == words[n + 1];
        }
      }
      var u := JoinSpaced(rest);
      JoinedStart(rest);
      SplitSpacedCons(t, w, u, maxsplit);
      SplitJoined(rest, maxsplit - 1);
      assert words == [w] + rest;
    }
  }

  /** A word, one space and text starting with a non-space: the word, then the split of that text. */
  lemma SplitSpacedCons(t: string, w: string, u: string, maxsplit: nat)
    requires t == w + " " + u && w != [] && NoSpace(w) && u != [] && !IsSpace(u[0]) && maxsplit > 0
    ensures SplitMax(t, maxsplit) == [w] + SplitMax(u, maxsplit - 1)
  {
    assert t[0..] == t;
    SplitFromSpaced(t, 0, w, u, maxsplit);
    assert t == (w + " ") + u;
    ContinuesAppend(w + " ", u);
    SplitFromShift(t, |w| + 1, u, 0, maxsplit - 1);
  }

  // ----- decimal numbers -----

  predicate IsDigit(c: char) {
    '0' <= c <= '9'
  }

  function DigitChar(d: nat): (c: char)
    requires d < 10
    ensures IsDigit(c)
  {
    ('0' as int + d) as char
  }

  function Pow10(k: nat): (p: nat)
    ensures p >= 1
  {
    if k == 0 then 1 else 10 * Pow10(k - 1)
  }

  /** `str(n)` for a non-negative integer. */
  function NatToString(n: nat): (s: string)
    ensures |s| >= 1
    ensures forall i :: 0 <= i < |s| ==> IsDigit(s[i])
  {
    if n < 10 then [DigitChar(n)] else NatToString(n / 10) + [DigitChar(n % 10)]
  }

  /** `str(n)`. */
  function IntToString(n: int): (r: string)
    ensures |r| >= 1 && (r[0] == '-' <==> n < 0)
    ensures forall i :: (if n < 0 then 1 else 0) <= i < |r| ==> IsDigit(r[i])
  {
    if n < 0 then "-" + NatToString(-n) else NatToString(n)
  }

  /**
   * The digit syntax `int()` accepts in base 10: at least one digit,
   * underscores only singly and only between two digits.
   */
  predicate DigitGroups(s: string) {
    && s != []
    && IsDigit(s[0]) && IsDigit(s[|s| - 1])
    && (forall i :: 0 <= i < |s| ==> IsDigit(s[i]) || s[i] == '_')
    && (forall i :: 0 <= i < |s| - 1 ==> !(s[i] == '_' && s[i + 1] == '_'))
  }

  /** The value of decimal digits, underscores ignored. */
  function DigitsValue(s: string): nat
    requires forall i :: 0 <= i < |s| ==> IsDigit(s[i]) || s[i] == '_'
  {
    if s == [] then 0
    else if s[|s| - 1] == '_' then DigitsValue(s[..|s| - 1])
    else
      var c := s[|s| - 1];
      assert IsDigit(c);
      10 * DigitsValue(s[..|s| - 1]) + (c as int - '0' as int)
  }

  /** Python's `int(s)` on text: surrounding whitespace, an optional sign, then decimal digits; `None` is the ValueError. */
  function ParseInt(s: string): (r: Option<int>)
    ensures IsBlank(s) ==> r == None
    ensures r.Some? ==> Strip(s) != [] && (r.value < 0 ==> Strip(s)[0] == '-')
  {
    var t := Strip(s);
    if t != [] && (t[0] == '+' || t[0] == '-') then
      if DigitGroups(t[1..]) then
        var n: int := DigitsValue(t[1..]);
        Some(if t[0] == '-' then -n else n)
      else None
    else if DigitGroups(t) then Some(DigitsValue(t))
    else None
  }

  lemma {:induction false} NatToStringValue(n: nat)
    ensures DigitsValue(NatToString(n)) == n
    decreases n
  {
    if n >= 10 {
      var s := NatToString(n / 10);
      var t := s + [DigitChar(n % 10)];
      assert t[..|t| - 1] == s;
      NatToStringValue(n / 10);
    }
  }

  /** `int()` reads only the stripped text. */
  lemma ParseIntSameStrip(s: string, t: string)
    requires Strip(s) == Strip(t)
    ensures ParseInt(s) == ParseInt(t)
  {
  }

  lemma StripKeeps(s: string)
    requires s != [] && !IsSpace(s[0]) && !IsSpace(s[|s| - 1])
    ensures Strip(s) == s
  {
    assert SkipSpace(s, 0) == 0;
    assert BackSpace(s, |s|) == |s|;
  }

  lemma NatToStringGroups(n: nat)
    ensures DigitGroups(NatToString(n))
  {
  }

  lemma ParseDigitsOnly(s: string)
    requires s != [] && (forall k :: 0 <= k < |s| ==> IsDigit(s[k]))
    ensures ParseInt(s) == Some(DigitsValue(s) as int)
  {
    StripKeeps(s);
    assert DigitGroups(s);
  }

  lemma ParseSigned(s: string)
    requires |s| >= 2 && s[0] == '-' && (forall k :: 1 <= k < |s| ==> IsDigit(s[k]))
    ensures ParseInt(s) == Some(-(DigitsValue(s[1..]) as int))
  {
    StripKeeps(s);
    assert DigitGroups(s[1..]);
  }

  /** Writing an integer in decimal and reading it back with `int()` gives the same integer. */
  lemma {:induction false} ParseIntRoundTrip(n: int)
    ensures ParseInt(IntToString(n)) == Some(n)
  {
    var m: nat := if n < 0 then -n else n;
    var d := NatToString(m);
    NatToStringValue(m);
    if n < 0 {
      var s := "-" + d;
      assert s[1..] == d;
      ParseSigned(s);
    } else {
      ParseDigitsOnly(d);
    }
  }

  /** `str(n)` starts and ends with something other than whitespace. */
  lemma IntToStringEdges(n: int)
    ensures var s := IntToString(n);
      s != [] && !IsSpace(s[0]) && !IsSpace(s[|s| - 1])
  {
    var d := NatToString(if n < 0 then -n else n);
    assert IsDigit(d[0]) && IsDigit(d[|d| - 1]);
  }

  /** A number has exactly `k` decimal digits when it lies in [10^(k-1), 10^k). */
  lemma {:induction false} NatToStringLength(n: nat, k: nat)
    requires k >= 1 && Pow10(k - 1) <= n < Pow10(k)
    ensures |NatToString(n)| == k
    decreases k
  {
    if k > 1 {
      assert n >= 10;
      NatToStringLength(n / 10, k - 1);
    }
  }
}
