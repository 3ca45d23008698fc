/** The parts of Kotlin's `String` and `List` API that the engine's text
    parsing relies on: `lines()`, `split` on a one-character delimiter and on
    the regular expression `\s+`, `startsWith`, `indexOf`, `replace` and
    `toInt`. Strings are sequences of UTF-16 code units. */
module KotlinText {
  import opened Exceptions
  import opened KotlinInts

  // ----- searching -----

  /** `s.startsWith(prefix)`. */
  predicate StartsWith(s: string, prefix: string)
  {
    |prefix| <= |s| && s[..|prefix|] == prefix
  }

  /** `list.indexOf(x)`: the first position holding `x`, or -1 when there
      is none. */
  function IndexOf(list: seq<string>, x: string): (r: int)
    ensures -1 <= r < |list|
    ensures r == -1 <==> x !in list
    ensures 0 <= r ==> list[r] == x && forall j :: 0 <= j < r ==> list[j] != x
  {
    if |list| == 0 then -1
    else if list[0] == x then 0
    else
      var k := IndexOf(list[1..], x);
      if k == -1 then -1 else k + 1
  }

  /** The position of the first `c` in `s`, or `|s|`. */
  function Find(s: string, c: char): (k: nat)
    ensures k <= |s| && c !in s[..k] && (k < |s| ==> s[k] == c)
  {
    if |s| == 0 then 0
    else if s[0] == c then 0
    else
      var k := Find(s[1..], c);
      assert s[..k + 1] == [s[0]] + s[1..][..k];
      k + 1
  }

  // ----- split on one character -----

  /** `s.split(sep)` with a one-character delimiter: every occurrence
      splits, and empty pieces (leading, trailing, or between adjacent
      delimiters) are kept. */
  function Split(s: string, sep: char): (r: seq<string>)
    ensures |r| >= 1
    decreases |s|
  {
    var k := Find(s, sep);
    if k == |s| then [s] else [s[..k]] + Split(s[k + 1..], sep)
  }

  /** `pieces.joinToString(sep)`. */
  function Join(pieces: seq<string>, sep: char): string
  {
    if |pieces| == 0 then ""
    else if |pieces| == 1 then pieces[0]
    else pieces[0] + [sep] + Join(pieces[1..], sep)
  }

  /** Splitting loses nothing: joining the pieces gives the string back. */
  lemma {:induction false} SplitJoin(s: string, sep: char)
    ensures Join(Split(s, sep), sep) == s
    decreases |s|
  {
    var k := Find(s, sep);
    if k < |s| {
      var head, rest := s[..k], s[k + 1..];
      var tail := Split(rest, sep);
      assert Split(s, sep) == [head] + tail;
      SplitJoin(rest, sep);
      JoinCons(head, tail, sep);
      Around(s, k);
    } else {
      assert Split(s, sep) == [s];
    }
  }

  /** A string is the part before position `k`, the character at `k` and
      the part after it. */
  lemma Around(s: string, k: nat)
    requires k < |s|
    ensures s == s[..k] + [s[k]] + s[k + 1..]
  {
  }

  /** Joining a piece in front of a non-empty list puts the delimiter
      between them. */
  lemma JoinCons(p: string, rest: seq<string>, sep: char)
    requires |rest| >= 1
    ensures Join([p] + rest, sep) == p + [sep] + Join(rest, sep)
  {
    assert ([p] + rest)[1..] == rest;
  }

  /** No piece contains the delimiter. */
  lemma {:induction false} SplitPiecesFree(s: string, sep: char)
    ensures forall i :: 0 <= i < |Split(s, sep)| ==> sep !in Split(s, sep)[i]
    decreases |s|
  {
    var k := Find(s, sep);
    if k < |s| {
      SplitPiecesFree(s[k + 1..], sep);
    }
  }

  /** The other round trip: pieces free of the delimiter come back from
      splitting their join. */
  lemma {:induction false} JoinSplit(pieces: seq<string>, sep: char)
    requires |pieces| >= 1 && forall i :: 0 <= i < |pieces| ==> sep !in pieces[i]
    ensures Split(Join(pieces, sep), sep) == pieces
  {
    var p := pieces[0];
    if |pieces| == 1 {
      FindAbsent(p, sep);
    } else {
      var rest := Join(pieces[1..], sep);
      assert Join(pieces, sep) == p + [sep] + rest;
      SplitAfterPiece(p, sep, rest);
      JoinSplit(pieces[1..], sep);
      assert pieces == [p] + pieces[1..];
    }
  }

  /** A delimiter-free piece followed by the delimiter splits off first. */
  lemma SplitAfterPiece(p: string, sep: char, rest: string)
    requires sep !in p
    ensures Split(p + [sep] + rest, sep) == [p] + Split(rest, sep)
  {
    var s := p + [sep] + rest;
    FindBefore(p, sep, rest);
    assert s[..|p|] == p && s[|p| + 1..] == rest;
  }

  /** Without `c`, `Find` runs to the end. */
  lemma {:induction false} FindAbsent(s: string, c: char)
    requires c !in s
    ensures Find(s, c) == |s|
  {
    if |s| > 0 {
      assert s[1..] <= s[1..];
      assert forall x :: x in s[1..] ==> x in s;
      FindAbsent(s[1..], c);
    }
  }

  /** `c` placed right after a `c`-free prefix is found there. */
  lemma {:induction false} FindBefore(p: string, c: char, rest: string)
    requires c !in p
    ensures Find(p + [c] + rest, c) == |p|
  {
    if |p| > 0 {
      assert (p + [c] + rest)[1..] == p[1..] + [c] + rest;
      assert forall x :: x in p[1..] ==> x in p;
      FindBefore(p[1..], c, rest);
    }
  }

  // ----- lines -----

  /** A line terminator of `lines()`: line feed or carriage return. */
  predicate IsLineBreak(c: char)
  {
    c == '\n' || c == '\r'
  }

  /** The position of the first line terminator in `s`, or `|s|`. */
  function FindBreak(s: string): (k: nat)
    ensures k <= |s| && (k < |s| ==> IsLineBreak(s[k]))
    ensures forall j :: 0 <= j < k ==> !IsLineBreak(s[j])
  {
    if |s| == 0 then 0
    else if IsLineBreak(s[0]) then 0
    else 1 + FindBreak(s[1..])
  }

  /** `s.lines()`: the pieces between terminators, where a terminator is
      CR LF, LF or CR. A terminator at the end leaves an empty last line. */
  function Lines(s: string): (r: seq<string>)
    ensures |r| >= 1
    decreases |s|
  {
    var k := FindBreak(s);
    if k == |s| then [s]
    else if s[k] == '\r' && k + 1 < |s| && s[k + 1] == '\n' then [s[..k]] + Lines(s[k + 2..])
    else [s[..k]] + Lines(s[k + 1..])
  }

  /** No line contains a terminator. */
  lemma {:induction false} LinesHaveNoBreaks(s: string)
    ensures forall i, j :: 0 <= i < |Lines(s)| && 0 <= j < |Lines(s)[i]| ==> !IsLineBreak(Lines(s)[i][j])
    decreases |s|
  {
    var k := FindBreak(s);
    if k < |s| {
      if s[k] == '\r' && k + 1 < |s| && s[k + 1] == '\n' {
        LinesHaveNoBreaks(s[k + 2..]);
      } else {
        LinesHaveNoBreaks(s[k + 1..]);
      }
    }
  }

  /** Text with LF terminators only: the lines are the pieces between line
      feeds, so joining them with LF gives the text back. */
  lemma {:induction false} LinesOfLineFeeds(s: string)
    requires '\r' !in s
    ensures Lines(s) == Split(s, '\n')
    ensures Join(Lines(s), '\n') == s
    decreases |s|
  {
    var k := FindBreak(s);
    FindBreakIsFind(s);
    if k < |s| {
      assert forall x :: x in s[k + 1..] ==> x in s;
      LinesOfLineFeeds(s[k + 1..]);
    }
    SplitJoin(s, '\n');
  }

  /** Without CR, the first terminator is the first LF. */
  lemma {:induction false} FindBreakIsFind(s: string)
    requires '\r' !in s
    ensures FindBreak(s) == Find(s, '\n')
  {
    if |s| > 0 && s[0] != '\n' {
      assert forall x :: x in s[1..] ==> x in s;
      FindBreakIsFind(s[1..]);
    }
  }

  // ----- split on whitespace -----

  /** `\s` of Java's regular expressions: space, tab, line feed, vertical
      tab, form feed, carriage return. */
  predicate IsWhitespace(c: char)
  {
    c == ' ' || c == '\t' || c == '\n' || c == '\U{B}' || c == '\U{C}' || c == '\r'
  }

  /** The position of the first whitespace character in `s`, or `|s|`. */
  function FindWhitespace(s: string): (k: nat)
    ensures k <= |s| && (k < |s| ==> IsWhitespace(s[k]))
    ensures forall j :: 0 <= j < k ==> !IsWhitespace(s[j])
  {
    if |s| == 0 then 0
    else if IsWhitespace(s[0]) then 0
    else 1 + FindWhitespace(s[1..])
  }

  /** The length of the run of whitespace that starts `s`. */
  function SkipWhitespace(s: string): (k: nat)
    ensures k <= |s| && (k < |s| ==> !IsWhitespace(s[k]))
    ensures forall j :: 0 <= j < k ==> IsWhitespace(s[j])
  {
    if |s| == 0 then 0
    else if !IsWhitespace(s[0]) then 0
    else 1 + SkipWhitespace(s[1..])
  }

  /** `s.split("\\s+".toRegex())`: the pieces around each maximal run of
      whitespace. A leading run leaves an empty first piece and a trailing
      run an empty last piece. */
  function SplitWhitespace(s: string): (r: seq<string>)
    ensures |r| >= 1
    decreases |s|
  {
    var k := FindWhitespace(s);
    if k == |s| then [s]
    else
      var rest := s[k..];
      [s[..k]] + SplitWhitespace(rest[SkipWhitespace(rest)..])
  }

  /** The pieces hold no whitespace, and only the first and the last can be
      empty: every run of whitespace is consumed whole. */
  lemma {:induction false} SplitWhitespacePieces(s: string)
    ensures forall i, j :: 0 <= i < |SplitWhitespace(s)| && 0 <= j < |SplitWhitespace(s)[i]|
              ==> !IsWhitespace(SplitWhitespace(s)[i][j])
    ensures forall i :: 0 < i < |SplitWhitespace(s)| - 1 ==> SplitWhitespace(s)[i] != ""
    decreases |s|
  {
    var k := FindWhitespace(s);
    if k < |s| {
      var rest := s[k..];
      var tail := rest[SkipWhitespace(rest)..];
      SplitWhitespacePieces(tail);
      if |SplitWhitespace(tail)| > 1 {
        assert tail != "" && !IsWhitespace(tail[0]);
        assert FindWhitespace(tail) > 0;
      }
    }
  }

  /** A string without whitespace is a single piece. */
  lemma SplitWhitespaceWord(s: string)
    requires forall j :: 0 <= j < |s| ==> !IsWhitespace(s[j])
    ensures SplitWhitespace(s) == [s]
  {
    assert FindWhitespace(s) == |s|;
  }

  // ----- replace -----

  /** `s.replace(from, to)` with one-character strings. */
  function ReplaceChar(s: string, from: char, to: char): (r: string)
    ensures |r| == |s|
  {
    seq(|s|, i requires 0 <= i < |s| => if s[i] == from then to else s[i])
  }

  /** Every `from` is replaced and every other character kept, so no `from`
      is left when it differs from `to`. */
  lemma ReplaceCharReplaces(s: string, from: char, to: char)
    requires from != to
    ensures from !in ReplaceChar(s, from, to)
    ensures forall i :: 0 <= i < |s| && s[i] != from ==> ReplaceChar(s, from, to)[i] == s[i]
  {
    var r := ReplaceChar(s, from, to);
    forall i | 0 <= i < |r|
      ensures r[i] != from
    {
    }
  }

  /** A string without `from` is left as it is. */
  lemma ReplaceCharAbsent(s: string, from: char, to: char)
    requires from !in s
    ensures ReplaceChar(s, from, to) == s
  {
    var r := ReplaceChar(s, from, to);
    forall i | 0 <= i < |s|
      ensures r[i] == s[i]
    {
      assert s[i] in s;
    }
  }

  // ----- toInt -----

  predicate IsDigit(c: char)
  {
    '0' <= c <= '9'
  }

  predicate AllDigits(s: string)
  {
    forall i :: 0 <= i < |s| ==> IsDigit(s[i])
  }

  /** The value of a string of decimal digits, most significant first;
      `None` when it is empty or holds anything but a digit. */
  function DigitsValue(ds: string): (r: Option<nat>)
  {
    if |ds| == 0 || !IsDigit(ds[|ds| - 1]) then None
    else
      var d := ds[|ds| - 1] as int - '0' as int;
      if |ds| == 1 then Some(d)
      else match DigitsValue(ds[..|ds| - 1])
        case None => None
        case Some(v) => Some(10 * v + d)
  }

  /** Exactly the nonempty strings of digits have a value. */
  lemma {:induction false} DigitsValueDefined(ds: string)
    ensures DigitsValue(ds).Some? <==> |ds| > 0 && AllDigits(ds)
  {
    if |ds| > 1 {
      var init := ds[..|ds| - 1];
      DigitsValueDefined(init);
      assert forall i :: 0 <= i < |init| ==> init[i] == ds[i];
    }
  }

  /** `s.toInt()` in base 10: an optional `+` or `-`, at least one digit, and
      a value that fits in `Int`; anything else is a NumberFormatException
      (`None`). */
  function ParseInt(s: string): (r: Option<int>)
    ensures r.Some? ==> -TwoTo31 <= r.value < TwoTo31
    ensures s == "" ==> r == None
  {
    if |s| == 0 then None
    else
      var digits := if s[0] == '-' || s[0] == '+' then s[1..] else s;
      match DigitsValue(digits)
      case None => None
      case Some(magnitude) =>
        var value: int := magnitude;
        var v := if s[0] == '-' then -value else value;
        if -TwoTo31 <= v < TwoTo31 then Some(v) else None
  }

  /** The decimal digits of `n` without leading zeros: `n.toString()`. */
  function Decimal(n: nat): (r: string)
    ensures |r| >= 1 && AllDigits(r)
  {
    var d := ['0' + (n % 10) as char];
    if n < 10 then d else Decimal(n / 10) + d
  }

  /** Reading back a rendered number gives the number. */
  lemma {:induction false} DigitsValueDecimal(n: nat)
    ensures DigitsValue(Decimal(n)) == Some(n)
  {
    var s := Decimal(n);
    if n >= 10 {
      DigitsValueDecimal(n / 10);
      assert s[..|s| - 1] == Decimal(n / 10);
    }
    assert IsDigit(s[|s| - 1]);
  }

  /** `toInt` inverts `toString` on every `Int`. */
  lemma ParseIntDecimal(n: int)
    requires -TwoTo31 <= n < TwoTo31
    ensures 0 <= n ==> ParseInt(Decimal(n)) == Some(n)
    ensures n < 0 ==> ParseInt("-" + Decimal(-n)) == Some(n)
  {
    if 0 <= n {
      DigitsValueDecimal(n);
      assert Decimal(n)[0] != '-' && Decimal(n)[0] != '+' by {
        assert IsDigit(Decimal(n)[0]);
      }
    } else {
      DigitsValueDecimal(-n);
      assert ("-" + Decimal(-n))[1..] == Decimal(-n);
    }
  }
}
