/** The JavaScript string built-ins the core relies on, stated over `string`
    (a sequence of `char`): lower-casing, `includes`, `startsWith`, `trim`,
    `split(',')`, `slice`, whitespace runs as matched by the regular
    expression class `\s`, and the decimal text of `Number.prototype.toString`
    on non-negative integers. */
module Text {

  import opened Wrappers

  // ---------------------------------------------------------------------
  // Characters

  predicate IsUpper(c: char) { 'A' <= c <= 'Z' }

  /** `toLowerCase` on one character, for the ASCII letters. */
  function LowerChar(c: char): (r: char)
    ensures !IsUpper(r)
    ensures !IsUpper(c) ==> r == c
  {
    if IsUpper(c) then (c as int + 32) as char else c
  }

  /** The characters of the ECMAScript classes WhiteSpace and LineTerminator:
      what `\s` matches and what `trim` removes. */
  predicate IsWhitespace(c: char)
  {
    c == '\t' || c == '\n' || c == '\U{000B}' || c == '\U{000C}' || c == '\r' || c == ' '
    || c == '\U{00A0}' || c == '\U{1680}' || ('\U{2000}' <= c <= '\U{200A}')
    || c == '\U{2028}' || c == '\U{2029}' || c == '\U{202F}' || c == '\U{205F}'
    || c == '\U{3000}' || c == '\U{FEFF}'
  }

  /** The ECMAScript LineTerminator characters: what `.` in a regular
      expression without the `s` flag does not match. */
  predicate IsLineTerminator(c: char)
  {
    c == '\n' || c == '\r' || c == '\U{2028}' || c == '\U{2029}'
  }

  // ---------------------------------------------------------------------
  // Lower-casing

  /** `s.toLowerCase()`: every character lower-cased, length kept. */
  function ToLower(s: string): (r: string)
    ensures |r| == |s|
    ensures forall i :: 0 <= i < |s| ==> r[i] == LowerChar(s[i])
  {
    seq(|s|, i requires 0 <= i < |s| => LowerChar(s[i]))
  }

  lemma ToLowerIdempotent(s: string)
    ensures ToLower(ToLower(s)) == ToLower(s)
  {
  }

  /** Lower-casing works character by character, so it distributes over
      concatenation. */
  lemma ToLowerConcat(x: string, y: string)
    ensures ToLower(x + y) == ToLower(x) + ToLower(y)
  {
  }

  /** A string with no upper-case letter is its own lower-case form. */
  lemma ToLowerOfLower(s: string)
    requires forall c :: c in s ==> !IsUpper(c)
    ensures ToLower(s) == s
  {
    forall i | 0 <= i < |s| ensures ToLower(s)[i] == s[i] {
      assert s[i] in s;
    }
  }

  // ---------------------------------------------------------------------
  // Substring search: `t.includes(k)`

  /** The characters of `k` from index `j` on occur in `t` from `i + j` on. */
  predicate MatchFrom(t: string, k: string, i: nat, j: nat)
    requires i + |k| <= |t| && j <= |k|
    decreases |k| - j
  {
    j == |k| || (t[i + j] == k[j] && MatchFrom(t, k, i, j + 1))
  }

  /** Some occurrence of `k` in `t` starts at an index `>= i`. */
  predicate IncludesFrom(t: string, k: string, i: nat)
    decreases |t| - i
  {
    i + |k| <= |t| && (MatchFrom(t, k, i, 0) || IncludesFrom(t, k, i + 1))
  }

  /** `t.includes(k)`: a left-to-right scan for an occurrence of `k`. */
  predicate Includes(t: string, k: string)
    ensures Includes(t, k) ==> |k| <= |t|
  {
    IncludesFrom(t, k, 0)
  }

  /** `k` stands in `t` at index `i`. */
  predicate SliceAt(t: string, k: string, i: int)
  {
    0 <= i && i + |k| <= |t| && t[i..i + |k|] == k
  }

  /** The reference definition: `k` is a contiguous slice of `t`. */
  ghost predicate Occurs(t: string, k: string)
  {
    exists i :: SliceAt(t, k, i)
  }

  lemma {:induction false} MatchFromIsSliceEquality(t: string, k: string, i: nat, j: nat)
    requires i + |k| <= |t| && j <= |k|
    ensures MatchFrom(t, k, i, j) <==> t[i + j..i + |k|] == k[j..]
    decreases |k| - j
  {
    if j < |k| {
      MatchFromIsSliceEquality(t, k, i, j + 1);
      assert t[i + j..i + |k|] == [t[i + j]] + t[i + j + 1..i + |k|];
      assert k[j..] == [k[j]] + k[j + 1..];
    }
  }

  lemma {:induction false} IncludesFromIsOccurrence(t: string, k: string, i: nat)
    ensures IncludesFrom(t, k, i) <==> exists p :: i <= p && SliceAt(t, k, p)
    decreases |t| - i
  {
    if i + |k| <= |t| {
      MatchFromIsSliceEquality(t, k, i, 0);
      assert k[0..] == k;
      IncludesFromIsOccurrence(t, k, i + 1);
      if MatchFrom(t, k, i, 0) {
        assert SliceAt(t, k, i);
      }
      if exists p :: i <= p && SliceAt(t, k, p) {
        var p :| i <= p && SliceAt(t, k, p);
        if p > i {
          assert i + 1 <= p && SliceAt(t, k, p);
        }
      }
    }
  }

  /** The scan finds exactly the occurrences of the reference definition. */
  lemma IncludesIffOccurs(t: string, k: string)
    ensures Includes(t, k) <==> Occurs(t, k)
  {
    IncludesFromIsOccurrence(t, k, 0);
  }

  /** A keyword with a character that `t` lacks is not included in `t`. */
  lemma AbsentCharNotIncluded(t: string, k: string, j: nat)
    requires j < |k| && k[j] !in t
    ensures !Includes(t, k)
  {
    IncludesIffOccurs(t, k);
  }

  /** An occurrence in `u` is an occurrence in any `t + u + w`. */
  lemma IncludesInfix(t: string, u: string, w: string, k: string)
    requires Includes(u, k)
    ensures Includes(t + u + w, k)
  {
    IncludesIffOccurs(u, k);
    var i :| SliceAt(u, k, i);
    var s := t + u + w;
    assert s[|t| + i..|t| + i + |k|] == u[i..i + |k|];
    assert SliceAt(s, k, |t| + i);
    IncludesIffOccurs(s, k);
  }

  /** A keyword without a space that occurs in neither `a` nor `b` does not
      occur in `a + " " + b`: no occurrence can straddle the space. */
  lemma NotIncludedAcrossSpace(a: string, b: string, k: string)
    requires ' ' !in k && !Includes(a, k) && !Includes(b, k)
    ensures !Includes(a + " " + b, k)
  {
    var s := a + " " + b;
    IncludesIffOccurs(a, k);
    IncludesIffOccurs(b, k);
    IncludesIffOccurs(s, k);
    assert s[|a| + 1..] == b;
    forall p ensures !SliceAt(s, k, p) {
      if 0 <= p && p + |k| <= |a| {
        assert s[p..p + |k|] == a[p..p + |k|];
        assert !SliceAt(a, k, p);
      } else if |a| < p && p + |k| <= |s| {
        assert s[p..p + |k|] == b[p - |a| - 1..p - |a| - 1 + |k|];
        assert !SliceAt(b, k, p - |a| - 1);
      } else if 0 <= p <= |a| < p + |k| <= |s| {
        assert s[p..p + |k|][|a| - p] == ' ';
      }
    }
    assert !Occurs(s, k);
  }

  /** `s.startsWith(p)`. */
  predicate StartsWith(s: string, p: string)
  {
    |p| <= |s| && s[..|p|] == p
  }

  // ---------------------------------------------------------------------
  // split, trim, slice

  /** `s.split(',')[0]`: everything before the first comma. */
  function BeforeComma(s: string): (r: string)
    ensures ',' !in r
    ensures StartsWith(s, r)
    ensures |r| < |s| ==> s[|r|] == ','
  {
    if s == [] || s[0] == ',' then [] else [s[0]] + BeforeComma(s[1..])
  }

  /** `s.split(',')[1]`: the field between the first and the second comma,
      or `None` (JavaScript's `undefined`) when `s` holds no comma. */
  function SecondCommaField(s: string): (r: Option<string>)
    ensures r.None? <==> ',' !in s
    ensures r.Some? ==> ',' !in r.value
    ensures r.Some? ==>
              var h := |BeforeComma(s)|;
              h < |s| && s[h] == ',' && StartsWith(s[h + 1..], r.value)
              && (h + 1 + |r.value| == |s| || s[h + 1 + |r.value|] == ',')
  {
    var head := BeforeComma(s);
    if |head| == |s| then
      assert s == head;
      None
    else
      Some(BeforeComma(s[|head| + 1..]))
  }

  /** Every character of `u` is whitespace. */
  predicate Blank(u: string)
  {
    forall c :: c in u ==> IsWhitespace(c)
  }

  /** The first comma field is the longest comma-free prefix: a prefix
      without a comma that is followed by a comma or the end is it. */
  lemma {:induction false} BeforeCommaUnique(s: string, n: nat)
    requires n <= |s| && ',' !in s[..n] && (n == |s| || s[n] == ',')
    ensures BeforeComma(s) == s[..n]
  {
    if n > 0 {
      assert s[0] == s[..n][0];
      assert s[1..][..n - 1] == s[1..n];
      assert forall c :: c in s[1..n] ==> c in s[..n];
      BeforeCommaUnique(s[1..], n - 1);
    }
  }

  /** The second comma field of `a,b` with neither part holding a comma. */
  lemma SecondCommaFieldOf(a: string, b: string)
    requires ',' !in a && ',' !in b
    ensures SecondCommaField(a + "," + b) == Some(b)
  {
    var s := a + "," + b;
    assert s[..|a|] == a;
    BeforeCommaUnique(s, |a|);
    assert s[|a| + 1..] == b;
    assert b[..|b|] == b;
    BeforeCommaUnique(b, |b|);
  }

  /** `s.trimStart()`. */
  function TrimStart(s: string): (r: string)
    ensures r == [] || !IsWhitespace(r[0])
    ensures |r| <= |s| && r == s[|s| - |r|..]
  {
    if s != [] && IsWhitespace(s[0]) then TrimStart(s[1..]) else s
  }

  /** `trimStart` drops only whitespace. */
  lemma {:induction false} TrimStartDrops(s: string)
    ensures Blank(s[..|s| - |TrimStart(s)|])
  {
    if s != [] && IsWhitespace(s[0]) {
      TrimStartDrops(s[1..]);
      assert s[..|s| - |TrimStart(s)|] == [s[0]] + s[1..][..|s[1..]| - |TrimStart(s[1..])|];
    }
  }

  /** `s.trimEnd()`. */
  function TrimEnd(s: string): (r: string)
    ensures r == [] || !IsWhitespace(r[|r| - 1])
    ensures |r| <= |s| && r == s[..|r|]
  {
    if s != [] && IsWhitespace(s[|s| - 1]) then TrimEnd(s[..|s| - 1]) else s
  }

  /** `trimEnd` drops only whitespace. */
  lemma {:induction false} TrimEndDrops(s: string)
    ensures Blank(s[|TrimEnd(s)|..])
  {
    if s != [] && IsWhitespace(s[|s| - 1]) {
      var u := s[..|s| - 1];
      TrimEndDrops(u);
      assert s[|TrimEnd(s)|..] == u[|TrimEnd(u)|..] + [s[|s| - 1]];
    }
  }

  /** `s.trim()`: the slice of `s` left once the whitespace before and
      after it is removed; it neither starts nor ends with whitespace. */
  function Trim(s: string): (r: string)
    ensures r == [] || (!IsWhitespace(r[0]) && !IsWhitespace(r[|r| - 1]))
    ensures SliceAt(s, r, |s| - |TrimStart(s)|)
    ensures Blank(s[..|s| - |TrimStart(s)|])
    ensures Blank(s[|s| - |TrimStart(s)| + |r|..])
  {
    TrimKeeps(s);
    TrimDrops(s);
    TrimEnd(TrimStart(s))
  }

  /** What `trimStart` and then `trimEnd` keep is a slice of `s` with no
      whitespace at either end. */
  lemma TrimKeeps(s: string)
    ensures var t := TrimStart(s);
            var r := TrimEnd(t);
            (r == [] || (!IsWhitespace(r[0]) && !IsWhitespace(r[|r| - 1])))
            && SliceAt(s, r, |s| - |t|)
  {
    var t := TrimStart(s);
    PrefixOfSuffix(s, |s| - |t|, t, TrimEnd(t));
  }

  /** A prefix of a suffix of `s` is a slice of `s`, with the suffix's first
      character. */
  lemma PrefixOfSuffix(s: string, k: nat, t: string, r: string)
    requires k <= |s| && t == s[k..] && |r| <= |t| && r == t[..|r|]
    ensures SliceAt(s, r, k)
    ensures r != [] ==> r[0] == t[0]
  {
  }

  /** What `trimStart` and then `trimEnd` drop is whitespace. */
  lemma TrimDrops(s: string)
    ensures var t := TrimStart(s);
            var k := |s| - |t|;
            Blank(s[..k]) && Blank(s[k + |TrimEnd(t)|..])
  {
    var t := TrimStart(s);
    var k := |s| - |t|;
    TrimStartDrops(s);
    TrimEndDrops(t);
    assert s[k + |TrimEnd(t)|..] == t[|TrimEnd(t)|..];
  }

  /** `s.slice(0, n)`. */
  function Prefix(s: string, n: nat): (r: string)
    ensures |r| == if |s| < n then |s| else n
    ensures StartsWith(s, r)
  {
    if |s| <= n then s else s[..n]
  }

  // ---------------------------------------------------------------------
  // Whitespace runs: `s.replace(/\s+/g, '_')`

  /** Replaces every maximal run of whitespace from index `i` on by one `_`;
      `prev` says whether the character before index `i` was whitespace. */
  function ReplaceRunsFrom(s: string, i: nat, prev: bool): (r: string)
    decreases |s| - i
  {
    if i >= |s| then []
    else if IsWhitespace(s[i]) then
      (if prev then ReplaceRunsFrom(s, i + 1, true) else "_" + ReplaceRunsFrom(s, i + 1, true))
    else [s[i]] + ReplaceRunsFrom(s, i + 1, false)
  }

  /** Every maximal whitespace run becomes one underscore. */
  function ReplaceWhitespaceRuns(s: string): (r: string)
    ensures |s| > 0 && !IsWhitespace(s[0]) ==> r != [] && r[0] == s[0]
    ensures |s| > 0 && IsWhitespace(s[0]) ==> r != [] && r[0] == '_'
  {
    ReplaceRunsFrom(s, 0, false)
  }

  lemma {:induction false} ReplaceRunsFromFacts(s: string, i: nat, prev: bool)
    ensures forall c :: c in ReplaceRunsFrom(s, i, prev) ==> !IsWhitespace(c)
    ensures |ReplaceRunsFrom(s, i, prev)| <= if i <= |s| then |s| - i else 0
    ensures i <= |s| && (forall j :: i <= j < |s| ==> !IsWhitespace(s[j])) ==>
              ReplaceRunsFrom(s, i, prev) == s[i..]
    decreases |s| - i
  {
    if i < |s| {
      ReplaceRunsFromFacts(s, i + 1, IsWhitespace(s[i]));
      assert s[i..] == [s[i]] + s[i + 1..];
    }
  }

  /** A run of characters that are not whitespace is copied as it is. */
  lemma {:induction false} CopyWordFrom(s: string, i: nat, k: nat)
    requires i <= k <= |s|
    requires forall j :: i <= j < k ==> !IsWhitespace(s[j])
    ensures ReplaceRunsFrom(s, i, false) == s[i..k] + ReplaceRunsFrom(s, k, false)
    decreases k - i
  {
    if i < k {
      CopyWordFrom(s, i + 1, k);
      assert s[i..k] == [s[i]] + s[i + 1..k];
    }
  }

  /** Inside a whitespace run, the rest of the run adds nothing. */
  lemma {:induction false} SkipRunFrom(s: string, i: nat, k: nat)
    requires i <= k <= |s|
    requires forall j :: i <= j < k ==> IsWhitespace(s[j])
    ensures ReplaceRunsFrom(s, i, true) == ReplaceRunsFrom(s, k, true)
    decreases k - i
  {
    if i < k {
      SkipRunFrom(s, i + 1, k);
    }
  }

  /** The replacement from index `|p| + i` of `p + t` depends only on `t`. */
  lemma {:induction false} ReplaceRunsShift(p: string, t: string, i: nat, prev: bool)
    ensures ReplaceRunsFrom(p + t, |p| + i, prev) == ReplaceRunsFrom(t, i, prev)
    decreases |t| - i
  {
    if i < |t| {
      assert (p + t)[|p| + i] == t[i];
      ReplaceRunsShift(p, t, i + 1, IsWhitespace(t[i]));
    }
  }

  /** The defining step of `replace(/\s+/g, '_')`: a word, then a maximal
      whitespace run, then the rest, gives the word, one `_`, and the rest
      replaced on its own. With the case of a text without whitespace this
      determines the result for every text. */
  lemma ReplaceWhitespaceRunsSplit(a: string, w: string, t: string)
    requires forall c :: c in a ==> !IsWhitespace(c)
    requires |w| > 0 && forall c :: c in w ==> IsWhitespace(c)
    requires t == [] || !IsWhitespace(t[0])
    ensures ReplaceWhitespaceRuns(a + w + t) == a + "_" + ReplaceWhitespaceRuns(t)
  {
    var s := a + w + t;
    var k := |a| + |w|;
    assert forall j :: 0 <= j < |a| ==> s[j] == a[j] && a[j] in a;
    assert forall j :: |a| <= j < k ==> s[j] == w[j - |a|] && w[j - |a|] in w;
    CopyWordFrom(s, 0, |a|);
    assert s[0..|a|] == a;
    assert IsWhitespace(s[|a|]);
    SkipRunFrom(s, |a| + 1, k);
    assert ReplaceRunsFrom(s, k, true) == ReplaceRunsFrom(s, k, false) by {
      if k < |s| {
        assert s[k] == t[0];
      }
    }
    assert s == (a + w) + t;
    ReplaceRunsShift(a + w, t, 0, false);
  }

  /** The replacement leaves no whitespace, never lengthens the text, and
      leaves a text without whitespace as it is. */
  lemma ReplaceWhitespaceRunsFacts(s: string)
    ensures forall c :: c in ReplaceWhitespaceRuns(s) ==> !IsWhitespace(c)
    ensures |ReplaceWhitespaceRuns(s)| <= |s|
    ensures (forall c :: c in s ==> !IsWhitespace(c)) ==> ReplaceWhitespaceRuns(s) == s
  {
    ReplaceRunsFromFacts(s, 0, false);
    if forall c :: c in s ==> !IsWhitespace(c) {
      assert forall j :: 0 <= j < |s| ==> s[j] in s;
    }
    assert s[0..] == s;
  }

  // ---------------------------------------------------------------------
  // Decimal text of a non-negative integer: `n.toString()`

  function DigitChar(d: nat): (c: char)
    requires d < 10
  {
    ('0' as int + d) as char
  }

  predicate IsDigit(c: char) { '0' <= c <= '9' }

  function DigitValue(c: char): (d: nat)
    requires IsDigit(c)
    ensures d < 10
  {
    c as int - '0' as int
  }

  /** `n.toString()` for a natural number. */
  function NatToString(n: nat): (r: string)
    ensures |r| > 0
    ensures forall c :: c in r ==> IsDigit(c)
    ensures |r| > 1 ==> r[0] != '0'
  {
    if n < 10 then [DigitChar(n)] else NatToString(n / 10) + [DigitChar(n % 10)]
  }

  /** The number a string of digits denotes; the inverse of `NatToString`. */
  function ParseDigits(s: string): nat
    requires forall c :: c in s ==> IsDigit(c)
  {
    if s == [] then 0
    else
      assert forall c :: c in s[..|s| - 1] ==> c in s;
      ParseDigits(s[..|s| - 1]) * 10 + DigitValue(s[|s| - 1])
  }

  lemma {:induction false} ParseNatToString(n: nat)
    ensures ParseDigits(NatToString(n)) == n
  {
    var s := NatToString(n);
    if n >= 10 {
      ParseNatToString(n / 10);
      assert s[..|s| - 1] == NatToString(n / 10);
    }
  }

  /** Different numbers have different decimal texts. */
  lemma NatToStringInjective(m: nat, n: nat)
    requires m != n
    ensures NatToString(m) != NatToString(n)
  {
    ParseNatToString(m);
    ParseNatToString(n);
  }
}
