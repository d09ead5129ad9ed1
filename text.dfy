/**
 * The string primitives the core relies on, over `string` (= seq<char>):
 * Python's str.isspace / strip / split, the `in` substring test,
 * str.replace(c, ''), ASCII lower-casing, int() on a token and str() of an int,
 * and JavaScript's String.prototype.trim.
 */
module Text {
  import opened Wrappers

  /** Python's str.isspace() on one character: the separators of str.split() and str.strip(). */
  predicate IsSpace(c: char)
  {
    ('\t' <= c <= '\r') || ('\U{1C}' <= c <= '\U{1F}') || c == ' '
    || c == '\U{85}' || c == '\U{A0}' || c == '\U{1680}'
    || ('\U{2000}' <= c <= '\U{200A}') || c == '\U{2028}' || c == '\U{2029}'
    || c == '\U{202F}' || c == '\U{205F}' || c == '\U{3000}'
  }

  /** The characters JavaScript's String.prototype.trim removes (WhiteSpace and LineTerminator). */
  predicate IsJsSpace(c: char)
  {
    ('\t' <= c <= '\r') || c == ' ' || c == '\U{A0}' || c == '\U{1680}'
    || ('\U{2000}' <= c <= '\U{200A}') || c == '\U{2028}' || c == '\U{2029}'
    || c == '\U{202F}' || c == '\U{205F}' || c == '\U{3000}' || c == '\U{FEFF}'
  }

  /** Python truthiness of an optional string: present and not empty. */
  predicate Truthy(o: Option<string>)
  {
    o.Some? && o.value != ""
  }

  // ---------------------------------------------------------------- trimming

  /** How many leading characters of `s` satisfy `sp`. */
  function LeadingCount(s: string, sp: char -> bool): (n: nat)
    ensures n <= |s|
    ensures forall i :: 0 <= i < n ==> sp(s[i])
    ensures n < |s| ==> !sp(s[n])
  {
    if s != [] && sp(s[0]) then 1 + LeadingCount(s[1..], sp) else 0
  }

  /** How many trailing characters of `s` satisfy `sp`. */
  function TrailingCount(s: string, sp: char -> bool): (n: nat)
    ensures n <= |s|
    ensures forall i :: |s| - n <= i < |s| ==> sp(s[i])
    ensures n < |s| ==> !sp(s[|s| - 1 - n])
  {
    if s != [] && sp(s[|s| - 1]) then 1 + TrailingCount(s[..|s| - 1], sp) else 0
  }

  /** `s` without its leading characters that satisfy `sp`. */
  function TrimLeft(s: string, sp: char -> bool): string
  {
    s[LeadingCount(s, sp)..]
  }

  /** `s` without its trailing characters that satisfy `sp`. */
  function TrimRight(s: string, sp: char -> bool): string
  {
    s[..|s| - TrailingCount(s, sp)]
  }

  /** Python's str.strip() with no argument. */
  function Strip(s: string): string
  {
    TrimRight(TrimLeft(s, IsSpace), IsSpace)
  }

  /** JavaScript's String.prototype.trim(). */
  function JsTrim(s: string): string
  {
    TrimRight(TrimLeft(s, IsJsSpace), IsJsSpace)
  }

  /** A string trims to nothing exactly when all of it is JavaScript white space. */
  lemma JsTrimEmptyIff(s: string)
    ensures JsTrim(s) == "" <==> forall i :: 0 <= i < |s| ==> IsJsSpace(s[i])
  {
    var n := LeadingCount(s, IsJsSpace);
    var t := TrimLeft(s, IsJsSpace);
    if n < |s| {
      assert t[0] == s[n] && !IsJsSpace(t[0]);
      var m := TrailingCount(t, IsJsSpace);
      assert m < |t|;
    }
  }

  lemma {:induction false} TrimLeftIdempotent(s: string, sp: char -> bool)
    ensures TrimLeft(TrimLeft(s, sp), sp) == TrimLeft(s, sp)
  {
  }

  // ---------------------------------------------------------------- splitting

  /** A token of str.split(): non-empty and free of whitespace. */
  predicate IsToken(w: string)
  {
    |w| > 0 && forall i :: 0 <= i < |w| ==> !IsSpace(w[i])
  }

  /** Length of the leading run of non-whitespace characters. */
  function WordLength(s: string): (n: nat)
    ensures n <= |s|
    ensures forall i :: 0 <= i < n ==> !IsSpace(s[i])
    ensures n < |s| ==> IsSpace(s[n])
  {
    if s == [] || IsSpace(s[0]) then 0 else 1 + WordLength(s[1..])
  }

  /** Python's str.split() with no argument: the maximal runs of non-whitespace, in order. */
  function Split(s: string): (toks: seq<string>)
    ensures forall i :: 0 <= i < |toks| ==> IsToken(toks[i])
    decreases |s|
  {
    var t := TrimLeft(s, IsSpace);
    if t == [] then []
    else
      var n := WordLength(t);
      [t[..n]] + Split(t[n..])
  }

  /** The words joined by single spaces (the inverse of Split on well-formed tokens). */
  function JoinSpaced(words: seq<string>): string
  {
    if words == [] then ""
    else if |words| == 1 then words[0]
    else words[0] + " " + JoinSpaced(words[1..])
  }

  /** A leading space never starts a token. */
  lemma SplitSkipsSpace(s: string)
    requires s != [] && IsSpace(s[0])
    ensures Split(s) == Split(s[1..])
  {
    assert TrimLeft(s, IsSpace) == TrimLeft(s[1..], IsSpace);
  }

  /** Split does not change when the input is left-trimmed first. */
  lemma SplitTrimLeft(s: string)
    ensures Split(TrimLeft(s, IsSpace)) == Split(s)
  {
    TrimLeftIdempotent(s, IsSpace);
  }

  /** Appending characters after a word boundary does not change the first word's length. */
  lemma {:induction false} WordLengthAppend(x: string, w: string)
    requires WordLength(x) < |x| || w == [] || IsSpace(w[0])
    ensures WordLength(x + w) == WordLength(x)
  {
    if x == [] {
    } else if IsSpace(x[0]) {
    } else {
      assert (x + w)[1..] == x[1..] + w;
      WordLengthAppend(x[1..], w);
    }
  }

  lemma SliceAppend(x: string, w: string, m: nat)
    requires m <= |x|
    ensures (x + w)[..m] == x[..m] && (x + w)[m..] == x[m..] + w
  {
  }

  /** A string that starts with a word splits into that word and the split of what follows it. */
  lemma SplitWordFirst(s: string)
    requires s != [] && !IsSpace(s[0])
    ensures Split(s) == [s[..WordLength(s)]] + Split(s[WordLength(s)..])
  {
    assert TrimLeft(s, IsSpace) == s;
  }

  /** Whitespace after a string does not change the string's first word. */
  lemma SplitLeadingWord(x: string, w: string)
    requires x != [] && !IsSpace(x[0])
    requires forall i :: 0 <= i < |w| ==> IsSpace(w[i])
    ensures var m := WordLength(x);
      && Split(x + w) == [x[..m]] + Split(x[m..] + w)
      && Split(x) == [x[..m]] + Split(x[m..])
  {
    var m := WordLength(x);
    WordLengthAppend(x, w);
    SplitWordFirst(x + w);
    SplitWordFirst(x);
    SliceAppend(x, w, m);
  }

  /** Whitespace alone produces no token. */
  lemma SplitOnlySpaces(w: string)
    requires forall i :: 0 <= i < |w| ==> IsSpace(w[i])
    ensures Split(w) == []
  {
    assert TrimLeft(w, IsSpace) == [];
  }

  /** A leading space is skipped when more text follows the string. */
  lemma SplitSpaceFirst(x: string, w: string)
    requires x != [] && IsSpace(x[0])
    ensures Split(x + w) == Split(x[1..] + w)
  {
    var s := x + w;
    assert s[0] == x[0] && s[1..] == x[1..] + w;
    SplitSkipsSpace(s);
  }

  /** Trailing whitespace produces no token. */
  lemma {:induction false} SplitAppendSpaces(x: string, w: string)
    requires forall i :: 0 <= i < |w| ==> IsSpace(w[i])
    ensures Split(x + w) == Split(x)
    decreases |x|
  {
    if x == [] {
      SplitOnlySpaces(w);
      assert x + w == w;
    } else if IsSpace(x[0]) {
      SplitSpaceFirst(x, w);
      SplitSkipsSpace(x);
      SplitAppendSpaces(x[1..], w);
    } else {
      SplitLeadingWord(x, w);
      SplitAppendSpaces(x[WordLength(x)..], w);
    }
  }

  /** `s.strip().split() == s.split()`: the strip before every split in the probes is redundant. */
  lemma SplitIgnoresStrip(s: string)
    ensures Split(Strip(s)) == Split(s)
  {
    var t := TrimLeft(s, IsSpace);
    var u := TrimRight(t, IsSpace);
    var w := t[|u|..];
    assert t == u + w;
    SplitAppendSpaces(u, w);
    SplitTrimLeft(s);
  }

  /** A string splits into no tokens exactly when its strip is empty (is falsy in Python). */
  lemma SplitEmptyIffBlank(s: string)
    ensures Split(s) == [] <==> Strip(s) == ""
  {
    var t := TrimLeft(s, IsSpace);
    if t != [] {
      var u := TrimRight(t, IsSpace);
      assert !IsSpace(t[0]);
      assert |u| > 0;
    }
  }

  /** A string with a non-whitespace character somewhere splits into at least one token. */
  lemma SplitNonBlank(s: string, k: nat)
    requires k < |s| && !IsSpace(s[k])
    ensures Split(s) != []
  {
    var n := LeadingCount(s, IsSpace);
    assert n <= k;
    assert TrimLeft(s, IsSpace) != [];
  }

  /** A whole token is one word. */
  lemma {:induction false} TokenWordLength(w: string)
    requires forall i :: 0 <= i < |w| ==> !IsSpace(w[i])
    ensures WordLength(w) == |w|
  {
    if w != [] {
      TokenWordLength(w[1..]);
    }
  }

  /** A token followed by nothing or by whitespace splits off as the first token. */
  lemma SplitTokenThen(w: string, rest: string)
    requires IsToken(w)
    requires rest == [] || IsSpace(rest[0])
    ensures Split(w + rest) == [w] + Split(rest)
  {
    TokenWordLength(w);
    WordLengthAppend(w, rest);
    assert TrimLeft(w + rest, IsSpace) == w + rest;
    assert (w + rest)[..|w|] == w;
    assert (w + rest)[|w|..] == rest;
  }

  /** A token then a space-led remainder splits into the token and the remainder's tokens. */
  lemma SplitTokenSpace(w: string, rest: string)
    requires IsToken(w)
    requires rest != [] && rest[0] == ' '
    ensures Split(w + rest) == [w] + Split(rest[1..])
  {
    SplitTokenThen(w, rest);
    SplitSkipsSpace(rest);
  }

  /** A token alone splits into itself. */
  lemma SplitOneToken(w: string)
    requires IsToken(w)
    ensures Split(w) == [w]
  {
    TokenWordLength(w);
    assert TrimLeft(w, IsSpace) == w;
    assert w[..|w|] == w;
    assert TrimLeft(w[|w|..], IsSpace) == [];
  }

  /** One step of the round trip: the first word splits off in front of the others. */
  lemma SplitJoinStep(words: seq<string>)
    requires |words| > 1 && IsToken(words[0])
    ensures Split(JoinSpaced(words)) == [words[0]] + Split(JoinSpaced(words[1..]))
  {
    var tail := JoinSpaced(words[1..]);
    var rest := " " + tail;
    assert JoinSpaced(words) == words[0] + rest;
    SplitTokenSpace(words[0], rest);
    assert rest[1..] == tail;
  }

  /** The round trip on at most one word. */
  lemma SplitJoinShort(words: seq<string>)
    requires |words| <= 1
    requires forall i :: 0 <= i < |words| ==> IsToken(words[i])
    ensures Split(JoinSpaced(words)) == words
  {
    if words == [] {
      assert JoinSpaced(words) == [];
      assert TrimLeft([], IsSpace) == [];
    } else {
      assert JoinSpaced(words) == words[0];
      SplitOneToken(words[0]);
      assert words == [words[0]];
    }
  }

  /** Round trip: splitting well-formed tokens joined by spaces gives the tokens back. */
  lemma {:induction false} SplitJoinSpaced(words: seq<string>)
    requires forall i :: 0 <= i < |words| ==> IsToken(words[i])
    ensures Split(JoinSpaced(words)) == words
  {
    if |words| <= 1 {
      SplitJoinShort(words);
    } else {
      SplitJoinStep(words);
      SplitJoinSpaced(words[1..]);
      assert words == [words[0]] + words[1..];
    }
  }

  /** The last token of a string, as `s.split()[-1]` (absent when there is none). */
  function LastToken(s: string): (r: Option<string>)
    ensures r.Some? <==> Split(s) != []
    ensures r.Some? ==> IsToken(r.value) && r.value == Split(s)[|Split(s)| - 1]
  {
    var toks := Split(s);
    if toks == [] then None else Some(toks[|toks| - 1])
  }

  // ---------------------------------------------------------------- substring

  /** The needle occurs in the haystack starting at index i. */
  predicate OccursAt(haystack: string, needle: string, i: int)
  {
    0 <= i && i + |needle| <= |haystack| && haystack[i..i + |needle|] == needle
  }

  /** Python's `needle in haystack` on strings. */
  predicate Contains(haystack: string, needle: string)
    decreases |haystack|
  {
    needle <= haystack || (haystack != [] && Contains(haystack[1..], needle))
  }

  /** `in` holds exactly when the needle occurs at some index. */
  lemma {:induction false} ContainsIff(haystack: string, needle: string)
    ensures Contains(haystack, needle) <==> exists i :: OccursAt(haystack, needle, i)
    decreases |haystack|
  {
    if needle <= haystack {
      assert OccursAt(haystack, needle, 0);
    } else if haystack == [] {
    } else {
      ContainsIff(haystack[1..], needle);
      if Contains(haystack[1..], needle) {
        var i :| OccursAt(haystack[1..], needle, i);
        OccursAtShift(haystack, needle, i);
      }
      if i :| OccursAt(haystack, needle, i) {
        OccursAtUnshift(haystack, needle, i);
      }
    }
  }

  /** An occurrence in the tail is an occurrence one further on. */
  lemma OccursAtShift(haystack: string, needle: string, i: int)
    requires haystack != [] && OccursAt(haystack[1..], needle, i)
    ensures OccursAt(haystack, needle, i + 1)
  {
    assert haystack[i + 1..i + 1 + |needle|] == haystack[1..][i..i + |needle|];
  }

  /** An occurrence that is not a prefix is an occurrence in the tail. */
  lemma OccursAtUnshift(haystack: string, needle: string, i: int)
    requires !(needle <= haystack) && OccursAt(haystack, needle, i)
    ensures OccursAt(haystack[1..], needle, i - 1)
  {
    assert i != 0;
    assert haystack[1..][i - 1..i - 1 + |needle|] == haystack[i..i + |needle|];
  }

  /** A needle surrounded by any text is still contained. */
  lemma ContainsInside(prefix: string, needle: string, suffix: string)
    ensures Contains(prefix + needle + suffix, needle)
  {
    var h := prefix + needle + suffix;
    assert h[|prefix|..|prefix| + |needle|] == needle;
    assert OccursAt(h, needle, |prefix|);
    ContainsIff(h, needle);
  }

  // ---------------------------------------------------------------- replace, lower

  /** Python's `s.replace(c, '')` for a one-character `c`. */
  function RemoveAll(s: string, c: char): (r: string)
    ensures c !in r
    ensures forall x :: x != c ==> multiset(r)[x] == multiset(s)[x]
    ensures c !in s ==> r == s
  {
    if s == [] then []
    else
      assert s == [s[0]] + s[1..];
      (if s[0] == c then [] else [s[0]]) + RemoveAll(s[1..], c)
  }

  /**
   * Removal works character by character and keeps the order of what is left: it
   * distributes over concatenation (with RemoveAllSingle, this pins RemoveAll down).
   */
  lemma {:induction false} RemoveAllAppend(a: string, b: string, c: char)
    ensures RemoveAll(a + b, c) == RemoveAll(a, c) + RemoveAll(b, c)
  {
    if a == [] {
      assert a + b == b;
    } else {
      var ab := a + b;
      assert ab[0] == a[0] && ab[1..] == a[1..] + b;
      var head := if a[0] == c then [] else [a[0]];
      RemoveAllFirst(ab, c);
      RemoveAllFirst(a, c);
      RemoveAllAppend(a[1..], b, c);
      ConcatAssoc(head, RemoveAll(a[1..], c), RemoveAll(b, c));
    }
  }

  /** Concatenation is associative. */
  lemma ConcatAssoc(p: string, q: string, r: string)
    ensures p + (q + r) == (p + q) + r
  {
  }

  /** Removal from a non-empty string: its first character, unless it is `c`, then the rest. */
  lemma RemoveAllFirst(s: string, c: char)
    requires s != []
    ensures RemoveAll(s, c) == (if s[0] == c then [] else [s[0]]) + RemoveAll(s[1..], c)
  {
  }

  /** A single character is dropped exactly when it is `c`. */
  lemma RemoveAllSingle(x: char, c: char)
    ensures RemoveAll([x], c) == if x == c then [] else [x]
  {
    assert [x][1..] == [];
  }

  /** One character lower-cased, for the ASCII letters. */
  function LowerChar(c: char): char
  {
    if 'A' <= c <= 'Z' then (c as int + 32) as char else c
  }

  /** Python's str.lower(), restricted to the ASCII letters. */
  function Lower(s: string): (r: string)
    ensures |r| == |s|
    ensures forall i :: 0 <= i < |s| ==> r[i] == LowerChar(s[i])
  {
    seq(|s|, i requires 0 <= i < |s| => LowerChar(s[i]))
  }

  /** `a.lower() == b.lower()`. */
  predicate SameIgnoringCase(a: string, b: string)
  {
    Lower(a) == Lower(b)
  }

  // ---------------------------------------------------------------- integers

  predicate IsDigit(c: char)
  {
    '0' <= c <= '9'
  }

  predicate AllDigits(s: string)
  {
    forall i :: 0 <= i < |s| ==> IsDigit(s[i])
  }

  function DigitChar(d: nat): (c: char)
    requires d < 10
    ensures IsDigit(c)
  {
    ('0' as int + d) as char
  }

  function DigitValue(c: char): (d: nat)
    requires IsDigit(c)
    ensures d < 10
  {
    c as int - '0' as int
  }

  /** The value of a string of decimal digits (leading zeros allowed; the empty string is 0). */
  function DigitsValue(s: string): nat
    requires AllDigits(s)
  {
    if s == [] then 0 else DigitsValue(s[..|s| - 1]) * 10 + DigitValue(s[|s| - 1])
  }

  /** Python's str() of a non-negative int: decimal digits, no leading zero. */
  function NatToString(n: nat): (s: string)
    ensures |s| > 0 && AllDigits(s)
    ensures |s| > 1 ==> s[0] != '0'
  {
    if n < 10 then [DigitChar(n)] else NatToString(n / 10) + [DigitChar(n % 10)]
  }

  /** Python's str() of an int. */
  function IntToString(i: int): string
  {
    if i < 0 then "-" + NatToString(-i) else NatToString(i)
  }

  lemma {:induction false} NatToStringRoundTrip(n: nat)
    ensures DigitsValue(NatToString(n)) == n
  {
    if n >= 10 {
      var s := NatToString(n);
      assert s[..|s| - 1] == NatToString(n / 10);
      NatToStringRoundTrip(n / 10);
    }
  }

  /** The digit part int() accepts: digits, with single underscores allowed between two digits. */
  predicate IsDigitGroup(s: string)
  {
    && |s| > 0 && IsDigit(s[0]) && IsDigit(s[|s| - 1])
    && (forall i :: 0 <= i < |s| ==> IsDigit(s[i]) || s[i] == '_')
    && (forall i :: 0 <= i < |s| - 1 ==> IsDigit(s[i]) || IsDigit(s[i + 1]))
  }

  /** The value of a digit group: its digits with the underscores removed. */
  function GroupValue(s: string): (v: nat)
    requires IsDigitGroup(s)
    ensures AllDigits(s) ==> v == DigitsValue(s)
  {
    var digits := RemoveAll(s, '_');
    assert AllDigits(digits) by {
      forall i | 0 <= i < |digits| ensures IsDigit(digits[i]) {
        var c := digits[i];
        assert c in multiset(digits);
        assert c != '_';
        assert c in multiset(s);
        var j :| 0 <= j < |s| && s[j] == c;
      }
    }
    DigitsValue(digits)
  }

  /** Python's `int(s)` for base 10 over ASCII digits: `None` where int() raises ValueError. */
  function ParseInt(s: string): Option<int>
  {
    ParseTrimmed(Strip(s))
  }

  /** int() of text already stripped of surrounding whitespace: an optional sign, then a digit group. */
  function ParseTrimmed(t: string): Option<int>
  {
    if t != [] && (t[0] == '+' || t[0] == '-') then
      if IsDigitGroup(t[1..]) then
        var v: int := GroupValue(t[1..]);
        Some(if t[0] == '-' then -v else v)
      else None
    else if IsDigitGroup(t) then Some(GroupValue(t))
    else None
  }

  /** A digit string has no whitespace, so stripping leaves it as it is. */
  lemma StripDigits(s: string)
    requires AllDigits(s)
    ensures Strip(s) == s
  {
    if s != [] {
      assert !IsSpace(s[0]);
      assert !IsSpace(s[|s| - 1]);
    }
  }

  /** int() of a plain digit string is its decimal value. */
  lemma ParseDigits(d: string)
    requires |d| > 0 && AllDigits(d)
    ensures ParseInt(d) == Some(DigitsValue(d))
  {
    assert IsDigitGroup(d);
    StripDigits(d);
  }

  /** A minus sign followed by digits has no whitespace at either end. */
  lemma StripMinus(d: string)
    requires |d| > 0 && AllDigits(d)
    ensures Strip("-" + d) == "-" + d
  {
    var s := "-" + d;
    assert !IsSpace(s[0]) && !IsSpace(s[|s| - 1]);
    assert TrimLeft(s, IsSpace) == s;
    assert TrimRight(s, IsSpace) == s;
  }

  /** int() of a minus sign and a digit group is the negated value of the group. */
  lemma ParseNegativeGroup(d: string)
    requires |d| > 0 && AllDigits(d)
    ensures ParseInt("-" + d) == Some(-(GroupValue(d) as int))
  {
    assert IsDigitGroup(d);
    StripMinus(d);
    ParseTrimmedMinus(d);
  }

  lemma ParseTrimmedMinus(d: string)
    requires IsDigitGroup(d)
    ensures ParseTrimmed("-" + d) == Some(-(GroupValue(d) as int))
  {
    assert ("-" + d)[1..] == d;
  }

  /** Round trip: int(str(i)) == i for every int. */
  lemma IntToStringRoundTrip(i: int)
    ensures ParseInt(IntToString(i)) == Some(i)
  {
    var n: nat := if i < 0 then -i else i;
    NatToStringRoundTrip(n);
    if i < 0 {
      ParseNegativeGroup(NatToString(n));
    } else {
      ParseDigits(NatToString(n));
    }
  }
}
