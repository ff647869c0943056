/**
 * The string operations of Python that the pipeline relies on, restricted to ASCII:
 * `str.lower`, `str.strip`, `in` (substring), `str.count`, `str.split`, `str.join`,
 * slicing, and the character classes `\d` and `\w` of the `re` module.
 */
module Text {

  // ---------------------------------------------------------------------------
  // Character classes

  predicate IsUpper(c: char) { 'A' <= c <= 'Z' }

  predicate IsDigit(c: char) { '0' <= c <= '9' }

  /** `\w` on ASCII: letters, digits and the underscore. */
  predicate IsWordChar(c: char) {
    'a' <= c <= 'z' || 'A' <= c <= 'Z' || IsDigit(c) || c == '_'
  }

  /** `str.isspace` on ASCII: space, \t \n \v \f \r and the separators 0x1C-0x1F. */
  predicate IsSpace(c: char) {
    c == ' ' || 9 <= c as int <= 13 || 28 <= c as int <= 31
  }

  // ---------------------------------------------------------------------------
  // Lower-casing

  function LowerChar(c: char): (d: char)
    ensures !IsUpper(d)
    ensures IsUpper(c) ==> d as int == c as int + 32
    ensures !IsUpper(c) ==> d == c
  {
    if IsUpper(c) then (c as int + 32) as char else c
  }

  /** `s.lower()`: upper-case ASCII letters become lower-case, every other character stays. */
  function Lower(s: string): (r: string)
    ensures |r| == |s|
    ensures forall i :: 0 <= i < |s| ==> r[i] == LowerChar(s[i])
  {
    seq(|s|, i requires 0 <= i < |s| => LowerChar(s[i]))
  }

  lemma LowerIdempotent(s: string)
    ensures Lower(Lower(s)) == Lower(s)
  {
  }

  // ---------------------------------------------------------------------------
  // Stripping whitespace

  function StripLeft(s: string): (r: string)
    ensures |r| <= |s| && r == s[|s| - |r|..]
    ensures r == [] || !IsSpace(r[0])
    ensures forall i :: 0 <= i < |s| - |r| ==> IsSpace(s[i])
    decreases |s|
  {
    if |s| > 0 && IsSpace(s[0]) then StripLeft(s[1..]) else s
  }

  function StripRight(s: string): (r: string)
    ensures |r| <= |s| && r == s[..|r|]
    ensures r == [] || !IsSpace(r[|r| - 1])
    ensures forall i :: |r| <= i < |s| ==> IsSpace(s[i])
    decreases |s|
  {
    if |s| > 0 && IsSpace(s[|s| - 1]) then StripRight(s[..|s| - 1]) else s
  }

  /** `s.strip()`: `s` without its leading and trailing whitespace. */
  function Strip(s: string): (r: string)
    ensures |r| <= |s|
    ensures r == [] || (!IsSpace(r[0]) && !IsSpace(r[|r| - 1]))
  {
    StripRight(StripLeft(s))
  }

  /** `Strip(s)` is a slice of `s`, so it holds no character that `s` lacks. */
  lemma StripNoNewChar(s: string, c: char)
    requires c !in s
    ensures c !in Strip(s)
  {
    var l := StripLeft(s);
    var r := StripRight(l);
    assert r == l[..|r|];
    assert l == s[|s| - |l|..];
    forall i | 0 <= i < |r| ensures r[i] != c {
      var j := |s| - |l| + i;
      assert r[i] == l[i];
      assert l[i] == s[j];
    }
  }

  /** A string that neither starts nor ends with whitespace is its own strip. */
  lemma {:induction false} StripOfTrimmed(s: string)
    requires s == [] || (!IsSpace(s[0]) && !IsSpace(s[|s| - 1]))
    ensures Strip(s) == s
  {
    assert StripLeft(s) == s;
    assert StripRight(s) == s;
  }

  /** Whitespace around a trimmed non-empty core is what `strip` removes. */
  lemma StripPadded(pre: string, core: string, post: string)
    requires forall i :: 0 <= i < |pre| ==> IsSpace(pre[i])
    requires forall i :: 0 <= i < |post| ==> IsSpace(post[i])
    requires core != [] && !IsSpace(core[0]) && !IsSpace(core[|core| - 1])
    ensures Strip(pre + core + post) == core
  {
    assert pre + core + post == pre + (core + post);
    StripLeftOfSpaces(pre, core + post);
    StripRightOfSpaces(core, post);
  }

  lemma {:induction false} StripLeftOfSpaces(pre: string, s: string)
    requires forall i :: 0 <= i < |pre| ==> IsSpace(pre[i])
    requires s == [] || !IsSpace(s[0])
    ensures StripLeft(pre + s) == s
  {
    if |pre| > 0 {
      assert (pre + s)[1..] == pre[1..] + s;
      StripLeftOfSpaces(pre[1..], s);
    } else {
      assert pre + s == s;
    }
  }

  lemma {:induction false} StripRightOfSpaces(s: string, post: string)
    requires forall i :: 0 <= i < |post| ==> IsSpace(post[i])
    requires s == [] || !IsSpace(s[|s| - 1])
    ensures StripRight(s + post) == s
  {
    if |post| > 0 {
      var n := |post| - 1;
      assert (s + post)[..|s + post| - 1] == s + post[..n];
      StripRightOfSpaces(s, post[..n]);
    } else {
      assert s + post == s;
    }
  }

  lemma StripIdempotent(s: string)
    ensures Strip(Strip(s)) == Strip(s)
  {
    StripOfTrimmed(Strip(s));
  }

  // ---------------------------------------------------------------------------
  // Substrings

  /** `sub` occurs in `s` starting at index `i`. */
  predicate OccursAt(s: string, sub: string, i: int) {
    0 <= i && i + |sub| <= |s| && s[i..i + |sub|] == sub
  }

  /** Python's `sub in s`. */
  predicate Contains(s: string, sub: string)
    decreases |s|
  {
    sub <= s || (|s| > 0 && Contains(s[1..], sub))
  }

  lemma OccursAfterFirst(s: string, sub: string, i: int)
    requires |s| > 0 && 0 <= i
    ensures OccursAt(s[1..], sub, i) <==> OccursAt(s, sub, i + 1)
  {
    if 0 <= i && i + |sub| <= |s| - 1 {
      assert s[1..][i..i + |sub|] == s[i + 1..i + 1 + |sub|];
    }
  }

  lemma {:induction false} ContainsIffOccurs(s: string, sub: string)
    ensures Contains(s, sub) <==> exists i :: OccursAt(s, sub, i)
    decreases |s|
  {
    if sub <= s {
      assert OccursAt(s, sub, 0);
    } else if |s| > 0 {
      ContainsIffOccurs(s[1..], sub);
      forall i | 0 <= i ensures OccursAt(s[1..], sub, i) <==> OccursAt(s, sub, i + 1) {
        OccursAfterFirst(s, sub, i);
      }
      assert !OccursAt(s, sub, 0);
      if exists i :: OccursAt(s, sub, i) {
        var i :| OccursAt(s, sub, i);
        assert OccursAt(s[1..], sub, i - 1);
      }
    }
  }

  /**
   * `s.count(sub)`: the number of non-overlapping occurrences of `sub`, scanning from the left
   * and resuming after each match; the empty string occurs `|s| + 1` times.
   */
  function Count(s: string, sub: string): nat
    decreases |s|
  {
    if sub == [] then |s| + 1
    else if sub <= s then 1 + Count(s[|sub|..], sub)
    else if |s| == 0 then 0
    else Count(s[1..], sub)
  }

  /** A term is counted at least once exactly when it occurs. */
  lemma {:induction false} CountPositiveIffContains(s: string, sub: string)
    ensures Count(s, sub) > 0 <==> Contains(s, sub)
    decreases |s|
  {
    if sub == [] || sub <= s {
    } else if |s| == 0 {
    } else {
      CountPositiveIffContains(s[1..], sub);
    }
  }

  /** Matches do not overlap: `Count(s, sub)` copies of a non-empty `sub` fit in `s`. */
  lemma {:induction false} CountFits(s: string, sub: string)
    requires sub != []
    ensures Count(s, sub) * |sub| <= |s|
    decreases |s|
  {
    if sub <= s {
      CountFits(s[|sub|..], sub);
    } else if |s| > 0 {
      CountFits(s[1..], sub);
    }
  }

  /**
   * `s.replace(pat, rep)` for a non-empty `pat`: occurrences are replaced left to right,
   * scanning resumes after each replaced occurrence.
   */
  function ReplaceAll(s: string, pat: string, rep: string): string
    requires pat != []
    decreases |s|
  {
    if pat <= s then rep + ReplaceAll(s[|pat|..], pat, rep)
    else if |s| == 0 then ""
    else [s[0]] + ReplaceAll(s[1..], pat, rep)
  }

  /** Replacing by something shorter never lengthens, and shortens when there is a match. */
  lemma {:induction false} ReplaceAllShrinks(s: string, pat: string, rep: string)
    requires pat != [] && |rep| < |pat|
    ensures |ReplaceAll(s, pat, rep)| <= |s|
    ensures Contains(s, pat) ==> |ReplaceAll(s, pat, rep)| < |s|
    decreases |s|
  {
    if pat <= s {
      ReplaceAllShrinks(s[|pat|..], pat, rep);
    } else if |s| > 0 {
      ReplaceAllShrinks(s[1..], pat, rep);
    }
  }

  /** Without an occurrence, `replace` changes nothing. */
  lemma {:induction false} ReplaceAllAbsent(s: string, pat: string, rep: string)
    requires pat != [] && !Contains(s, pat)
    ensures ReplaceAll(s, pat, rep) == s
    decreases |s|
  {
    if |s| > 0 {
      ReplaceAllAbsent(s[1..], pat, rep);
      assert s == [s[0]] + s[1..];
    }
  }

  // ---------------------------------------------------------------------------
  // Splitting and joining

  /** `s.split(sep)` for a one-character separator: never empty; no part contains `sep`. */
  function Split(s: string, sep: char): (parts: seq<string>)
    ensures |parts| > 0
    ensures forall i :: 0 <= i < |parts| ==> sep !in parts[i]
    decreases |s|
  {
    if |s| == 0 then [""]
    else
      var rest := Split(s[1..], sep);
      if s[0] == sep then [""] + rest else [[s[0]] + rest[0]] + rest[1..]
  }

  /** `sep.join(parts)`. */
  function Join(sep: string, parts: seq<string>): string
  {
    if |parts| == 0 then ""
    else if |parts| == 1 then parts[0]
    else parts[0] + sep + Join(sep, parts[1..])
  }

  /** Joining one more part adds the separator and that part at the end. */
  lemma {:induction false} JoinSnoc(sep: string, parts: seq<string>, p: string)
    requires |parts| > 0
    ensures Join(sep, parts + [p]) == Join(sep, parts) + sep + p
    decreases |parts|
  {
    assert (parts + [p])[1..] == parts[1..] + [p];
    if |parts| > 1 {
      JoinSnoc(sep, parts[1..], p);
    }
  }

  lemma {:induction false} SplitAfterPlain(a: string, t: string, sep: char)
    requires sep !in a
    ensures Split(a + t, sep) == [a + Split(t, sep)[0]] + Split(t, sep)[1..]
    decreases |a|
  {
    var p := Split(t, sep);
    if |a| > 0 {
      SplitAfterPlain(a[1..], t, sep);
      assert (a + t)[0] == a[0] != sep;
      assert (a + t)[1..] == a[1..] + t;
      assert [a[0]] + (a[1..] + p[0]) == a + p[0];
    } else {
      assert a + t == t;
      assert a + p[0] == p[0];
      assert p == [p[0]] + p[1..];
    }
  }

  /** Splitting undoes joining, when every part is free of the separator. */
  lemma {:induction false} SplitJoin(parts: seq<string>, sep: char)
    requires |parts| > 0
    requires forall i :: 0 <= i < |parts| ==> sep !in parts[i]
    ensures Split(Join([sep], parts), sep) == parts
    decreases |parts|
  {
    if |parts| == 1 {
      SplitAfterPlain(parts[0], "", sep);
      assert parts[0] + "" == parts[0];
    } else {
      var tail := Join([sep], parts[1..]);
      SplitJoin(parts[1..], sep);
      SplitAfterPlain(parts[0], [sep] + tail, sep);
      assert Join([sep], parts) == parts[0] + ([sep] + tail);
      assert ([sep] + tail)[0] == sep;
      assert ([sep] + tail)[1..] == tail;
      assert Split([sep] + tail, sep) == [""] + Split(tail, sep);
      assert parts[0] + "" == parts[0];
      assert parts == [parts[0]] + parts[1..];
    }
  }

  /** Splitting loses no character: joining the parts with the separator gives the text back. */
  lemma {:induction false} JoinSplit(s: string, sep: char)
    ensures Join([sep], Split(s, sep)) == s
    decreases |s|
  {
    if |s| > 0 {
      var rest := Split(s[1..], sep);
      JoinSplit(s[1..], sep);
      if s[0] == sep {
        assert ([""] + rest)[1..] == rest;
        assert Join([sep], [""] + rest) == "" + [sep] + Join([sep], rest);
      } else if |rest| == 1 {
        assert Join([sep], [[s[0]] + rest[0]] + rest[1..]) == [s[0]] + rest[0];
      } else {
        var parts := [[s[0]] + rest[0]] + rest[1..];
        assert parts[1..] == rest[1..];
        assert Join([sep], parts) == [s[0]] + rest[0] + [sep] + Join([sep], rest[1..]);
        assert Join([sep], rest) == rest[0] + [sep] + Join([sep], rest[1..]);
      }
      assert s == [s[0]] + s[1..];
    }
  }

  /** No two adjacent characters of `s` are both `c`. */
  predicate NoAdjacent(s: string, c: char) {
    forall i :: 0 <= i < |s| - 1 ==> s[i] != c || s[i + 1] != c
  }

  /** Joining parts that are non-empty and free of `c` never puts two `c` side by side. */
  lemma {:induction false} JoinNoAdjacent(parts: seq<string>, c: char)
    requires forall i :: 0 <= i < |parts| ==> parts[i] != [] && c !in parts[i]
    ensures NoAdjacent(Join([c], parts), c)
    ensures |parts| > 0 ==> Join([c], parts) != [] && Join([c], parts)[0] == parts[0][0]
    decreases |parts|
  {
    if |parts| == 1 {
      var p := parts[0];
      forall i | 0 <= i < |p| - 1 ensures p[i] != c { assert p[i] in p; }
    } else if |parts| > 1 {
      var p := parts[0];
      var tail := Join([c], parts[1..]);
      JoinNoAdjacent(parts[1..], c);
      var j := p + [c] + tail;
      assert Join([c], parts) == j;
      assert tail[0] == parts[1][0] && tail[0] != c by { assert parts[1][0] in parts[1]; }
      forall i | 0 <= i < |j| - 1 ensures j[i] != c || j[i + 1] != c {
        if i < |p| {
          assert j[i] == p[i] && p[i] in p;
        } else if i == |p| {
          assert j[i + 1] == tail[0];
        } else {
          assert j[i] == tail[i - |p| - 1] && j[i + 1] == tail[i - |p|];
        }
      }
    }
  }

  lemma NoAdjacentNoPair(s: string, c: char)
    requires NoAdjacent(s, c)
    ensures !Contains(s, [c, c])
  {
    forall i | 0 <= i && i + 2 <= |s| ensures !OccursAt(s, [c, c], i) {
      assert s[i..i + 2][0] == s[i] && s[i..i + 2][1] == s[i + 1];
    }
    ContainsIffOccurs(s, [c, c]);
  }

  /** A string with no `c c` has no `c c c` either. */
  lemma NoTripledFromNoDoubled(s: string, c: char)
    requires !Contains(s, [c, c])
    ensures !Contains(s, [c, c, c])
  {
    forall i | OccursAt(s, [c, c, c], i)
      ensures OccursAt(s, [c, c], i)
    {
      assert s[i..i + 2] == s[i..i + 3][..2];
    }
    ContainsIffOccurs(s, [c, c]);
    ContainsIffOccurs(s, [c, c, c]);
  }

  // ---------------------------------------------------------------------------
  // Slicing and filtering

  /** `s[:n]`. */
  function Take(s: string, n: nat): (r: string)
    ensures r <= s
    ensures |r| == if n <= |s| then n else |s|
  {
    if n <= |s| then s[..n] else s
  }

  /** `re.sub(r'[^\d.]', '', s)`: keeps the digits and full stops of `s`, in order. */
  function DigitsAndDots(s: string): (r: string)
    ensures |r| <= |s|
    ensures forall i :: 0 <= i < |r| ==> IsDigit(r[i]) || r[i] == '.'
  {
    if |s| == 0 then ""
    else
      assert s == [s[0]] + s[1..];
      (if IsDigit(s[0]) || s[0] == '.' then [s[0]] else "") + DigitsAndDots(s[1..])
  }

  /** `re.sub(r'[^\d]', '', s)`: keeps the digits of `s`, in order. */
  function DigitsOnly(s: string): (r: string)
    ensures |r| <= |s|
    ensures forall i :: 0 <= i < |r| ==> IsDigit(r[i])
  {
    if |s| == 0 then ""
    else
      assert s == [s[0]] + s[1..];
      (if IsDigit(s[0]) then [s[0]] else "") + DigitsOnly(s[1..])
  }

  /** `re.sub(r'[^\w]', '', s)`: keeps the word characters of `s`, in order. */
  function WordCharsOnly(s: string): (r: string)
    ensures |r| <= |s|
    ensures forall i :: 0 <= i < |r| ==> IsWordChar(r[i])
  {
    if |s| == 0 then ""
    else
      assert s == [s[0]] + s[1..];
      (if IsWordChar(s[0]) then [s[0]] else "") + WordCharsOnly(s[1..])
  }

  /** A string made only of kept characters passes each filter unchanged. */
  lemma {:induction false} DigitsAndDotsOfKept(s: string)
    requires forall i :: 0 <= i < |s| ==> IsDigit(s[i]) || s[i] == '.'
    ensures DigitsAndDots(s) == s
  {
    if |s| > 0 {
      DigitsAndDotsOfKept(s[1..]);
    }
  }

  lemma {:induction false} DigitsOnlyOfKept(s: string)
    requires forall i :: 0 <= i < |s| ==> IsDigit(s[i])
    ensures DigitsOnly(s) == s
  {
    if |s| > 0 {
      DigitsOnlyOfKept(s[1..]);
    }
  }

  lemma {:induction false} WordCharsOnlyOfKept(s: string)
    requires forall i :: 0 <= i < |s| ==> IsWordChar(s[i])
    ensures WordCharsOnly(s) == s
  {
    if |s| > 0 {
      WordCharsOnlyOfKept(s[1..]);
    }
  }

  /** The three filters keep characters one by one, so they distribute over concatenation. */
  lemma {:induction false} DigitsAndDotsAppend(a: string, b: string)
    ensures DigitsAndDots(a + b) == DigitsAndDots(a) + DigitsAndDots(b)
  {
    if |a| > 0 {
      assert (a + b)[1..] == a[1..] + b;
      DigitsAndDotsAppend(a[1..], b);
    } else {
      assert a + b == b;
    }
  }

  lemma {:induction false} DigitsOnlyAppend(a: string, b: string)
    ensures DigitsOnly(a + b) == DigitsOnly(a) + DigitsOnly(b)
  {
    if |a| > 0 {
      assert (a + b)[1..] == a[1..] + b;
      DigitsOnlyAppend(a[1..], b);
    } else {
      assert a + b == b;
    }
  }

  lemma {:induction false} WordCharsOnlyAppend(a: string, b: string)
    ensures WordCharsOnly(a + b) == WordCharsOnly(a) + WordCharsOnly(b)
  {
    if |a| > 0 {
      assert (a + b)[1..] == a[1..] + b;
      WordCharsOnlyAppend(a[1..], b);
    } else {
      assert a + b == b;
    }
  }

  // ---------------------------------------------------------------------------
  // Decimal rendering

  /** The last `width` decimal digits of `n`, zero-padded on the left (`%0<width>d`). */
  function Fixed(n: nat, width: nat): (r: string)
    ensures |r| == width
    ensures forall i :: 0 <= i < |r| ==> IsDigit(r[i])
  {
    if width == 0 then "" else Fixed(n / 10, width - 1) + [('0' as int + n % 10) as char]
  }

  /** `str(n)` for a natural number. */
  function NatToDecimal(n: nat): (r: string)
    ensures |r| > 0
    ensures forall i :: 0 <= i < |r| ==> IsDigit(r[i])
  {
    if n < 10 then [('0' as int + n) as char]
    else NatToDecimal(n / 10) + [('0' as int + n % 10) as char]
  }

  /** `str(i)` for an integer. */
  function IntToDecimal(i: int): string
  {
    if i < 0 then "-" + NatToDecimal(-i) else NatToDecimal(i)
  }
}
