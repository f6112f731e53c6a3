/**
 * The Python string operations the dashboard relies on, written out:
 * `str.strip()` (city input), `str.split()` (the forecast time label),
 * `str.title()` (the weather description), `str(int)` (humidity bar
 * labels) and zero-padded decimal fields (the `strftime` timestamp).
 */
module Text {

  /** Python's whitespace for `str.split()` and `str.strip()` without
      arguments: tab to carriage return, the four information separators
      U+001C..U+001F, space, U+0085, U+00A0, U+1680, U+2000..U+200A, U+2028,
      U+2029, U+202F, U+205F and U+3000. */
  predicate IsSpace(c: char)
  {
    var n := c as int;
    (9 <= n <= 13) || (28 <= n <= 32) || n == 0x85 || n == 0xA0 || n == 0x1680
    || (0x2000 <= n <= 0x200A) || n == 0x2028 || n == 0x2029 || n == 0x202F
    || n == 0x205F || n == 0x3000
  }

  predicate AllSpace(s: string)
  {
    forall i :: 0 <= i < |s| ==> IsSpace(s[i])
  }

  predicate NoSpace(s: string)
  {
    forall i :: 0 <= i < |s| ==> !IsSpace(s[i])
  }

  // ---------------------------------------------------------------------
  // str.strip()

  /** `s.lstrip()`: the suffix of `s` left after its leading whitespace. */
  function TrimStart(s: string): (r: string)
    ensures |r| <= |s|
    ensures r == [] || !IsSpace(r[0])
  {
    if s != [] && IsSpace(s[0]) then TrimStart(s[1..]) else s
  }

  /** `lstrip()` removes leading whitespace and nothing else: the result is
      a suffix of the input, and what comes before it is all whitespace. */
  lemma {:induction false} TrimStartDropsSpace(s: string)
    ensures var r := TrimStart(s);
      r == s[|s| - |r|..] && AllSpace(s[..|s| - |r|])
  {
    if s != [] && IsSpace(s[0]) {
      var r := TrimStart(s[1..]);
      TrimStartDropsSpace(s[1..]);
      var lead := |s| - |r|;
      assert s[1..][|s| - 1 - |r|..] == s[lead..];
      forall i | 0 <= i < lead ensures IsSpace(s[..lead][i]) {
        if i > 0 { assert s[..lead][i] == s[1..][..lead - 1][i - 1]; }
      }
    }
  }

  /** `s.rstrip()`: the prefix of `s` left before its trailing whitespace. */
  function TrimEnd(s: string): (r: string)
    ensures |r| <= |s|
    ensures r == [] || !IsSpace(r[|r| - 1])
  {
    if s != [] && IsSpace(s[|s| - 1]) then TrimEnd(s[..|s| - 1]) else s
  }

  /** `rstrip()` removes trailing whitespace and nothing else: the result is
      a prefix of the input, and what follows it is all whitespace. */
  lemma {:induction false} TrimEndDropsSpace(s: string)
    ensures var r := TrimEnd(s);
      r == s[..|r|] && AllSpace(s[|r|..])
  {
    if s != [] && IsSpace(s[|s| - 1]) {
      var p := s[..|s| - 1];
      var r := TrimEnd(p);
      TrimEndDropsSpace(p);
      assert p[..|r|] == s[..|r|];
      forall i | 0 <= i < |s| - |r| ensures IsSpace(s[|r|..][i]) {
        if i < |p| - |r| { assert s[|r|..][i] == p[|r|..][i]; }
      }
    }
  }

  /** A string is blank exactly when its first character is whitespace
      and the rest is blank. */
  lemma AllSpaceCons(s: string)
    requires s != []
    ensures AllSpace(s) <==> IsSpace(s[0]) && AllSpace(s[1..])
  {
    if IsSpace(s[0]) && AllSpace(s[1..]) {
      forall i | 0 <= i < |s| ensures IsSpace(s[i]) {
        if i > 0 { assert s[i] == s[1..][i - 1]; }
      }
    }
    if AllSpace(s) {
      forall i | 0 <= i < |s| - 1 ensures IsSpace(s[1..][i]) {
        assert s[1..][i] == s[i + 1];
      }
    }
  }

  /** A string is blank exactly when its last character is whitespace and
      the rest is blank. */
  lemma AllSpaceSnoc(s: string)
    requires s != []
    ensures AllSpace(s) <==> IsSpace(s[|s| - 1]) && AllSpace(s[..|s| - 1])
  {
    var p := s[..|s| - 1];
    if IsSpace(s[|s| - 1]) && AllSpace(p) {
      forall i | 0 <= i < |s| ensures IsSpace(s[i]) {
        if i < |s| - 1 { assert s[i] == p[i]; }
      }
    }
    if AllSpace(s) {
      forall i | 0 <= i < |p| ensures IsSpace(p[i]) {
        assert p[i] == s[i];
      }
    }
  }

  /** Only a blank string strips to nothing from the left. */
  lemma {:induction false} TrimStartEmptyIffBlank(s: string)
    ensures TrimStart(s) == [] <==> AllSpace(s)
  {
    if s != [] {
      AllSpaceCons(s);
      if IsSpace(s[0]) {
        assert TrimStart(s) == TrimStart(s[1..]);
        TrimStartEmptyIffBlank(s[1..]);
      } else {
        assert TrimStart(s) == s;
      }
    }
  }

  /** Only a blank string strips to nothing from the right. */
  lemma {:induction false} TrimEndEmptyIffBlank(s: string)
    ensures TrimEnd(s) == [] <==> AllSpace(s)
  {
    if s != [] {
      AllSpaceSnoc(s);
      if IsSpace(s[|s| - 1]) {
        assert TrimEnd(s) == TrimEnd(s[..|s| - 1]);
        TrimEndEmptyIffBlank(s[..|s| - 1]);
      } else {
        assert TrimEnd(s) == s;
      }
    }
  }

  /** `s.strip()`, which is `s.lstrip().rstrip()`: `s` without leading and
      trailing whitespace. It is empty exactly when `s` is blank, and
      otherwise starts and ends with a non-whitespace character. */
  function Strip(s: string): (r: string)
    ensures r == [] <==> AllSpace(s)
    ensures r != [] ==> !IsSpace(r[0]) && !IsSpace(r[|r| - 1])
  {
    var t := TrimStart(s);
    TrimStartEmptyIffBlank(s);
    TrimEndEmptyIffBlank(t);
    TrimEndDropsSpace(t);
    TrimEnd(t)
  }

  /** `strip()` cuts only whitespace: the result is the slice of `s` that
      starts at some `k`, with only whitespace before and after it. */
  lemma StripIsSlice(s: string)
    ensures var r := Strip(s);
      exists k :: 0 <= k <= |s| - |r| && r == s[k..k + |r|]
                  && AllSpace(s[..k]) && AllSpace(s[k + |r|..])
  {
    var t := TrimStart(s);
    var r := Strip(s);
    TrimStartDropsSpace(s);
    TrimEndDropsSpace(t);
    var k := |s| - |t|;
    assert r == t[..|r|];
    assert t[..|r|] == s[k..k + |r|];
    assert t[|r|..] == s[k + |r|..];
  }

  // ---------------------------------------------------------------------
  // str.split()

  /** Length of the run of non-whitespace characters at the start of `s`. */
  function WordLength(s: string): (n: nat)
    ensures n <= |s|
    ensures n < |s| ==> IsSpace(s[n])
    ensures n == 0 <==> s == [] || IsSpace(s[0])
  {
    if s == [] || IsSpace(s[0]) then 0 else 1 + WordLength(s[1..])
  }

  /** The run `WordLength` measures holds no whitespace. */
  lemma {:induction false} WordLengthNoSpace(s: string)
    ensures NoSpace(s[..WordLength(s)])
  {
    if s != [] && !IsSpace(s[0]) {
      var n := WordLength(s);
      WordLengthNoSpace(s[1..]);
      forall i | 0 <= i < n ensures !IsSpace(s[..n][i]) {
        if i > 0 { assert s[..n][i] == s[1..][..n - 1][i - 1]; }
      }
    }
  }

  /** Every element of `ws` is a non-empty run of non-whitespace. */
  predicate AllWords(ws: seq<string>)
  {
    forall k :: 0 <= k < |ws| ==> ws[k] != [] && NoSpace(ws[k])
  }

  lemma AllWordsCons(w: string, ws: seq<string>)
    requires w != [] && NoSpace(w) && AllWords(ws)
    ensures AllWords([w] + ws)
  {
    forall k | 0 <= k < |[w] + ws| ensures ([w] + ws)[k] != [] && NoSpace(([w] + ws)[k]) {
      if k > 0 { assert ([w] + ws)[k] == ws[k - 1]; }
    }
  }

  /** `s.split()`: the maximal runs of non-whitespace characters, in order. */
  function Split(s: string): (r: seq<string>)
    ensures AllWords(r)
    decreases |s|
  {
    var t := TrimStart(s);
    if t == [] then []
    else
      var n := WordLength(t);
      var rest := Split(t[n..]);
      WordLengthNoSpace(t);
      AllWordsCons(t[..n], rest);
      [t[..n]] + rest
  }

  /** The characters of `s` that are not whitespace, in order. */
  function NonSpace(s: string): string
  {
    if s == [] then []
    else (if IsSpace(s[0]) then [] else [s[0]]) + NonSpace(s[1..])
  }

  function Concat(ws: seq<string>): string
  {
    if ws == [] then [] else ws[0] + Concat(ws[1..])
  }

  /** Words joined with one space, as `" ".join(ws)`. */
  function JoinSpace(ws: seq<string>): string
  {
    if ws == [] then []
    else if |ws| == 1 then ws[0]
    else ws[0] + " " + JoinSpace(ws[1..])
  }

  lemma {:induction false} NonSpaceAppend(a: string, b: string)
    ensures NonSpace(a + b) == NonSpace(a) + NonSpace(b)
    decreases |a|
  {
    if a == [] {
      assert a + b == b;
    } else {
      assert (a + b)[0] == a[0];
      assert (a + b)[1..] == a[1..] + b;
      NonSpaceAppend(a[1..], b);
    }
  }

  lemma {:induction false} NonSpaceOfAllSpace(s: string)
    requires AllSpace(s)
    ensures NonSpace(s) == []
    decreases |s|
  {
    if s != [] { NonSpaceOfAllSpace(s[1..]); }
  }

  lemma {:induction false} NonSpaceOfNoSpace(s: string)
    requires NoSpace(s)
    ensures NonSpace(s) == s
    decreases |s|
  {
    if s != [] { NonSpaceOfNoSpace(s[1..]); }
  }

  lemma NonSpaceAfterTrim(s: string)
    ensures NonSpace(s) == NonSpace(TrimStart(s))
  {
    var t := TrimStart(s);
    TrimStartDropsSpace(s);
    var lead := |s| - |t|;
    assert s == s[..lead] + t;
    NonSpaceAppend(s[..lead], t);
    NonSpaceOfAllSpace(s[..lead]);
  }

  lemma NonSpaceOfWordThenRest(t: string, n: nat)
    requires n <= |t| && NoSpace(t[..n])
    ensures NonSpace(t) == t[..n] + NonSpace(t[n..])
  {
    assert t == t[..n] + t[n..];
    NonSpaceAppend(t[..n], t[n..]);
    NonSpaceOfNoSpace(t[..n]);
  }

  lemma ConcatCons(w: string, ws: seq<string>)
    ensures Concat([w] + ws) == w + Concat(ws)
  {
    assert ([w] + ws)[1..] == ws;
  }

  /** Splitting loses nothing but whitespace: the words, put back together,
      are exactly the non-whitespace characters of the input. */
  lemma {:induction false} SplitKeepsNonSpace(s: string)
    ensures Concat(Split(s)) == NonSpace(s)
    decreases |s|
  {
    var t := TrimStart(s);
    NonSpaceAfterTrim(s);
    if t == [] {
      assert Split(s) == [];
    } else {
      var n := WordLength(t);
      var w, rest := t[..n], t[n..];
      assert Split(s) == [w] + Split(rest);
      WordLengthNoSpace(t);
      NonSpaceOfWordThenRest(t, n);
      SplitKeepsNonSpace(rest);
      ConcatCons(w, Split(rest));
    }
  }

  /** A blank string has no words, and only a blank string has none. */
  lemma SplitEmptyIffBlank(s: string)
    ensures Split(s) == [] <==> AllSpace(s)
  {
    TrimStartEmptyIffBlank(s);
    var t := TrimStart(s);
    if t != [] {
      assert Split(s) == [t[..WordLength(t)]] + Split(t[WordLength(t)..]);
    }
  }

  lemma {:induction false} TrimStartOfSpaces(sp: string, t: string)
    requires AllSpace(sp)
    ensures TrimStart(sp + t) == TrimStart(t)
    decreases |sp|
  {
    if sp == [] {
      assert sp + t == t;
    } else {
      assert (sp + t)[0] == sp[0];
      assert (sp + t)[1..] == sp[1..] + t;
      TrimStartOfSpaces(sp[1..], t);
    }
  }

  lemma {:induction false} WordLengthOfWord(w: string, rest: string)
    requires NoSpace(w)
    requires rest == [] || IsSpace(rest[0])
    ensures WordLength(w + rest) == |w|
    decreases |w|
  {
    if w != [] {
      assert (w + rest)[1..] == w[1..] + rest;
      WordLengthOfWord(w[1..], rest);
    }
  }

  /** A word followed by whitespace (or by nothing) is split off whole. */
  lemma SplitWordThenRest(w: string, rest: string)
    requires w != [] && NoSpace(w)
    requires rest == [] || IsSpace(rest[0])
    ensures Split(w + rest) == [w] + Split(rest)
  {
    var s := w + rest;
    assert TrimStart(s) == s;
    WordLengthOfWord(w, rest);
    assert s[..|w|] == w && s[|w|..] == rest;
  }

  lemma SplitSingleWord(w: string)
    requires w != [] && NoSpace(w)
    ensures Split(w) == [w]
  {
    var e: string := [];
    SplitWordThenRest(w, e);
    assert w + e == w;
    assert Split(e) == [];
  }

  /** Leading whitespace does not change the words. */
  lemma SplitAfterSpaces(sp: string, t: string)
    requires AllSpace(sp)
    ensures Split(sp + t) == Split(t)
  {
    TrimStartOfSpaces(sp, t);
  }

  lemma SplitWordSpaceRest(w: string, rest: string)
    requires w != [] && NoSpace(w)
    ensures Split(w + " " + rest) == [w] + Split(rest)
  {
    var tail := " " + rest;
    assert w + " " + rest == w + tail;
    assert IsSpace(tail[0]);
    SplitWordThenRest(w, tail);
    assert AllSpace(" ");
    SplitAfterSpaces(" ", rest);
  }

  lemma SplitJoinStep(ws: seq<string>)
    requires |ws| >= 2 && ws[0] != [] && NoSpace(ws[0])
    requires Split(JoinSpace(ws[1..])) == ws[1..]
    ensures Split(JoinSpace(ws)) == ws
  {
    assert JoinSpace(ws) == ws[0] + " " + JoinSpace(ws[1..]);
    SplitWordSpaceRest(ws[0], JoinSpace(ws[1..]));
    assert ws == [ws[0]] + ws[1..];
  }

  /** `" ".join(ws).split() == ws` for words that are non-empty and hold no
      whitespace. */
  lemma {:induction false} SplitJoinSpace(ws: seq<string>)
    requires forall k :: 0 <= k < |ws| ==> ws[k] != [] && NoSpace(ws[k])
    ensures Split(JoinSpace(ws)) == ws
    decreases |ws|
  {
    if |ws| == 1 {
      SplitSingleWord(ws[0]);
    } else if |ws| >= 2 {
      SplitJoinSpace(ws[1..]);
      SplitJoinStep(ws);
    }
  }

  // ---------------------------------------------------------------------
  // str.title(), restricted to ASCII letters

  predicate IsUpper(c: char) { 'A' <= c <= 'Z' }
  predicate IsLower(c: char) { 'a' <= c <= 'z' }

  /** Python's "cased" characters; in this ASCII model, the letters. */
  predicate IsCased(c: char) { IsUpper(c) || IsLower(c) }

  function ToUpper(c: char): char
  {
    if IsLower(c) then (c as int - 32) as char else c
  }

  function ToLower(c: char): char
  {
    if IsUpper(c) then (c as int + 32) as char else c
  }

  /** The loop of `str.title()`: a character right after a cased character is
      lower-cased, any other character is title-cased. */
  function TitleFrom(s: string, previousIsCased: bool): (r: string)
    ensures |r| == |s|
  {
    if s == [] then []
    else
      [if previousIsCased then ToLower(s[0]) else ToUpper(s[0])]
      + TitleFrom(s[1..], IsCased(s[0]))
  }

  /** `s.title()`. */
  function Title(s: string): string
  {
    TitleFrom(s, false)
  }

  /** Position `i` of `s` starts a word: nothing cased comes right before it. */
  predicate StartsWord(s: string, i: nat)
    requires i < |s|
  {
    i == 0 || !IsCased(s[i - 1])
  }

  lemma {:induction false} TitleFromAt(s: string, previousIsCased: bool, i: nat)
    requires i < |s|
    ensures TitleFrom(s, previousIsCased)[i] ==
      if (if i == 0 then previousIsCased else IsCased(s[i - 1]))
      then ToLower(s[i]) else ToUpper(s[i])
    decreases i
  {
    if i > 0 {
      TitleFromAt(s[1..], IsCased(s[0]), i - 1);
    }
  }

  /** Every word of `s.title()` starts with an upper-case letter and goes on
      in lower case; characters that are not letters are kept. */
  lemma TitleAt(s: string, i: nat)
    requires i < |s|
    ensures |Title(s)| == |s|
    ensures Title(s)[i] == if StartsWord(s, i) then ToUpper(s[i]) else ToLower(s[i])
  {
    TitleFromAt(s, false, i);
  }

  /** Title-casing changes letter case only. */
  lemma TitleSameLetters(s: string, i: nat)
    requires i < |s|
    ensures ToLower(Title(s)[i]) == ToLower(s[i])
    ensures IsCased(Title(s)[i]) == IsCased(s[i])
  {
    TitleAt(s, i);
  }

  /** Title-casing a title-cased string changes nothing. */
  lemma TitleIdempotent(s: string)
    ensures Title(Title(s)) == Title(s)
  {
    var t := Title(s);
    forall i | 0 <= i < |t|
      ensures Title(t)[i] == t[i]
    {
      TitleAt(t, i);
      TitleAt(s, i);
      if i > 0 {
        TitleSameLetters(s, i - 1);
      }
    }
  }

  // ---------------------------------------------------------------------
  // Decimal digits: str(int) and strftime's zero-padded fields

  predicate IsDigit(c: char) { '0' <= c <= '9' }

  predicate AllDigits(s: string)
  {
    forall i :: 0 <= i < |s| ==> IsDigit(s[i])
  }

  function DigitChar(d: nat): (c: char)
    requires d < 10
    ensures IsDigit(c)
  {
    ('0' as int + d) as char
  }

  /** The value of a string of decimal digits, most significant first. */
  function DigitsValue(s: string): nat
    requires AllDigits(s)
  {
    if s == [] then 0
    else 10 * DigitsValue(s[..|s| - 1]) + (s[|s| - 1] as int - '0' as int)
  }

  /** `str(n)` for a natural number: decimal digits without leading zeros. */
  function NatToString(n: nat): (r: string)
    ensures r != [] && AllDigits(r)
    ensures |r| > 1 ==> r[0] != '0'
  {
    if n < 10 then [DigitChar(n)] else NatToString(n / 10) + [DigitChar(n % 10)]
  }

  /** `str(i)` for a Python int: a minus sign before the digits of a negative
      number. */
  function IntToString(i: int): string
  {
    if i < 0 then "-" + NatToString(-i) else NatToString(i)
  }

  /** Reading back a rendered int; the inverse of IntToString. */
  function ParseInt(s: string): int
    requires (s != [] && s[0] == '-' && AllDigits(s[1..])) || AllDigits(s)
  {
    if s != [] && s[0] == '-' then -(DigitsValue(s[1..]) as int) else DigitsValue(s)
  }

  lemma {:induction false} NatToStringValue(n: nat)
    ensures DigitsValue(NatToString(n)) == n
  {
    if n >= 10 {
      var r := NatToString(n);
      NatToStringValue(n / 10);
      assert r[..|r| - 1] == NatToString(n / 10);
    }
  }

  /** `int(str(i)) == i`. */
  lemma IntToStringRoundTrip(i: int)
    ensures var s := IntToString(i);
      ((s != [] && s[0] == '-' && AllDigits(s[1..])) || AllDigits(s)) && ParseInt(s) == i
  {
    if i < 0 {
      NatToStringValue(-i);
      assert IntToString(i)[1..] == NatToString(-i);
    } else {
      NatToStringValue(i);
    }
  }

  function Pow10(k: nat): (p: nat)
    ensures p >= 1
  {
    if k == 0 then 1 else 10 * Pow10(k - 1)
  }

  /** `n` in exactly `width` digits with leading zeros, as strftime writes
      `%m` (width 2) or `%Y` (width 4). */
  function PadDigits(n: nat, width: nat): (r: string)
    ensures |r| == width && AllDigits(r)
  {
    if width == 0 then [] else PadDigits(n / 10, width - 1) + [DigitChar(n % 10)]
  }

  /** A zero-padded field reads back as the number it was made from. */
  lemma {:induction false} PadDigitsValue(n: nat, width: nat)
    requires n < Pow10(width)
    ensures DigitsValue(PadDigits(n, width)) == n
  {
    if width > 0 {
      var r := PadDigits(n, width);
      PadDigitsValue(n / 10, width - 1);
      assert r[..|r| - 1] == PadDigits(n / 10, width - 1);
    }
  }
}
