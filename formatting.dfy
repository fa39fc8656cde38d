/** `escape_md_v2` and `format_report_md`: the report text is escaped for
    Telegram's MarkdownV2 and reshaped line by line before the bot sends it. */
module Formatting {
  import opened Text

  /** 📝, put in front of a numbered heading. */
  const HeadingMark: char := '\U{1F4DD}'
  /** 📌, put in front of a sub-item. */
  const BulletMark: char := '\U{1F4CC}'

  /** The class `[_*\[\]()~`>#+\-=|{}.!$]` of characters that get a backslash. */
  predicate IsMdSpecial(c: char) {
    c in "_*[]()~`>#+-=|{}.!$"
  }

  /** `escape_md_v2`: a backslash in front of every special character.
      The result never starts with a special character. */
  function EscapeMdV2(s: string): (r: string)
    ensures |r| >= |s|
    ensures r == [] <==> s == []
    ensures r != [] ==> !IsMdSpecial(r[0]) && (r[0] == '\\' || r[0] == s[0])
  {
    if s == [] then ""
    else (if IsMdSpecial(s[0]) then ['\\', s[0]] else [s[0]]) + EscapeMdV2(s[1..])
  }

  /** Number of special characters in `s`. */
  function CountSpecial(s: string): nat
  {
    if s == [] then 0 else (if IsMdSpecial(s[0]) then 1 else 0) + CountSpecial(s[1..])
  }

  /** What a MarkdownV2 reader does: a backslash in front of a special
      character is dropped, everything else is read as it is. */
  function Unescape(r: string): (s: string)
    ensures |s| <= |r|
    decreases |r|
  {
    if r == [] then ""
    else if |r| >= 2 && r[0] == '\\' && IsMdSpecial(r[1]) then [r[1]] + Unescape(r[2..])
    else [r[0]] + Unescape(r[1..])
  }

  /** The escaped text reads back as the original. */
  lemma {:induction false} UnescapeEscape(s: string)
    ensures Unescape(EscapeMdV2(s)) == s
    decreases |s|
  {
    if s != [] {
      UnescapeEscape(s[1..]);
      var tail := EscapeMdV2(s[1..]);
      var r := EscapeMdV2(s);
      if IsMdSpecial(s[0]) {
        assert r == ['\\', s[0]] + tail;
        assert r[2..] == tail;
      } else {
        assert r == [s[0]] + tail;
        assert r[1..] == tail;
        assert |r| >= 2 ==> !IsMdSpecial(r[1]) by {
          if |r| >= 2 {
            assert r[1] == tail[0];
          }
        }
      }
    }
  }

  /** Escaping adds exactly one character per special character. */
  lemma {:induction false} EscapeLength(s: string)
    ensures |EscapeMdV2(s)| == |s| + CountSpecial(s)
    decreases |s|
  {
    if s != [] {
      EscapeLength(s[1..]);
    }
  }

  /** Every special character of the escaped text has a backslash in front. */
  lemma {:induction false} SpecialsEscaped(s: string)
    ensures forall i :: 0 <= i < |EscapeMdV2(s)| && IsMdSpecial(EscapeMdV2(s)[i]) ==>
                          i > 0 && EscapeMdV2(s)[i - 1] == '\\'
    decreases |s|
  {
    if s != [] {
      SpecialsEscaped(s[1..]);
      var tail := EscapeMdV2(s[1..]);
      var r := EscapeMdV2(s);
      var h := if IsMdSpecial(s[0]) then ['\\', s[0]] else [s[0]];
      assert r == h + tail;
      forall i | 0 <= i < |r| && IsMdSpecial(r[i])
        ensures i > 0 && r[i - 1] == '\\'
      {
        if i < |h| {
          assert r[i] == h[i];
          if i == 1 {
            assert r[0] == h[0];
          }
        } else {
          var j := i - |h|;
          assert r[i] == tail[j];
          assert j > 0 && tail[j - 1] == '\\';
          assert r[i - 1] == tail[j - 1];
        }
      }
    }
  }

  /** Escaping introduces no character other than the backslash. */
  lemma {:induction false} EscapeAddsOnlyBackslash(s: string, c: char)
    requires c != '\\' && c !in s
    ensures c !in EscapeMdV2(s)
    decreases |s|
  {
    if s != [] {
      assert c !in s[1..];
      EscapeAddsOnlyBackslash(s[1..], c);
    }
  }

  // ---------------------------------------------------------------------
  // Numbered headings

  /** Length of the leading run of digits. */
  function DigitRun(s: string): (n: nat)
    ensures n <= |s|
    ensures forall i :: 0 <= i < n ==> IsDigit(s[i])
    ensures n == |s| || !IsDigit(s[n])
  {
    if s == [] || !IsDigit(s[0]) then 0 else 1 + DigitRun(s[1..])
  }

  /** `re.match(r'^\d+\.', s)`, decided on the maximal digit run. */
  predicate IsNumberedHeading(s: string) {
    var n := DigitRun(s);
    0 < n < |s| && s[n] == '.'
  }

  /** The greedy test agrees with the pattern: some non-empty digit prefix is
      followed by a dot, and only then. */
  lemma NumberedHeadingMeaning(s: string)
    ensures IsNumberedHeading(s) <==>
            exists k :: 0 < k < |s| && s[k] == '.' && forall i :: 0 <= i < k ==> IsDigit(s[i])
  {
    var n := DigitRun(s);
    if IsNumberedHeading(s) {
      assert 0 < n < |s| && s[n] == '.' && forall i :: 0 <= i < n ==> IsDigit(s[i]);
    }
    if exists k :: 0 < k < |s| && s[k] == '.' && forall i :: 0 <= i < k ==> IsDigit(s[i]) {
      var k :| 0 < k < |s| && s[k] == '.' && forall i :: 0 <= i < k ==> IsDigit(s[i]);
      assert !IsDigit(s[k]);
      assert n == k;
    }
  }

  // ---------------------------------------------------------------------
  // Formatting a report

  /** The lines a stripped input line turns into. */
  function FormatStripped(t: string): (out: seq<string>)
  {
    if IsNumberedHeading(t) then ["*" + [HeadingMark, ' '] + EscapeMdV2(t) + "*", ""]
    else if StartsWith(t, "- ") then ["    " + [BulletMark, ' '] + EscapeMdV2(t)]
    else if t == "" then [""]
    else [EscapeMdV2(t)]
  }

  /** The lines one input line turns into: the line is stripped first. */
  function FormatLine(line: string): seq<string>
  {
    FormatStripped(Strip(line))
  }

  /** The outputs of `f` on each element of `xs`, one after the other. */
  function FlatMap(xs: seq<string>, f: string -> seq<string>): seq<string>
  {
    if xs == [] then [] else f(xs[0]) + FlatMap(xs[1..], f)
  }

  lemma {:induction false} FlatMapSnoc(xs: seq<string>, x: string, f: string -> seq<string>)
    ensures FlatMap(xs + [x], f) == FlatMap(xs, f) + f(x)
    decreases |xs|
  {
    if xs == [] {
      assert [] + [x] == [x];
    } else {
      FlatMapSnoc(xs[1..], x, f);
      assert (xs + [x])[1..] == xs[1..] + [x];
    }
  }

  lemma FlatMapPrefixStep(xs: seq<string>, i: nat, f: string -> seq<string>)
    requires i < |xs|
    ensures FlatMap(xs[..i + 1], f) == FlatMap(xs[..i], f) + f(xs[i])
  {
    FlatMapSnoc(xs[..i], xs[i], f);
    assert xs[..i + 1] == xs[..i] + [xs[i]];
  }

  /** The formatted lines of a sequence of input lines, in order. */
  function FormatAll(lines: seq<string>): seq<string>
  {
    FlatMap(lines, FormatLine)
  }

  /** `format_report_md` as a value: the input split at line breaks, each line
      formatted, the results joined with line breaks. */
  function FormatReport(text: string): string
  {
    Join(FormatAll(SplitOn(text, '\n')), "\n")
  }

  /** `format_report_md`: the loop over the lines of the text. */
  method FormatReportMd(text: string) returns (out: string)
    ensures out == FormatReport(text)
  {
    var lines := SplitOn(text, '\n');
    var formatted: seq<string> := [];
    var i := 0;
    while i < |lines|
      invariant 0 <= i <= |lines|
      invariant formatted == FlatMap(lines[..i], FormatLine)
    {
      FlatMapPrefixStep(lines, i, FormatLine);
      formatted := AppendFormatted(formatted, lines[i]);
      i := i + 1;
    }
    PrefixAll(lines, i);
    out := Join(formatted, "\n");
  }

  /** The body of the loop: the stripped line is classified and its output
      appended. */
  method AppendFormatted(formatted: seq<string>, line: string) returns (r: seq<string>)
    ensures r == formatted + FormatLine(line)
  {
    var stripped := Strip(line);
    if IsNumberedHeading(stripped) {
      var lineEsc := EscapeMdV2(stripped);
      r := formatted + ["*" + [HeadingMark, ' '] + lineEsc + "*"];
      r := r + [""];
    } else if StartsWith(stripped, "- ") {
      var lineEsc := EscapeMdV2(stripped);
      r := formatted + ["    " + [BulletMark, ' '] + lineEsc];
    } else if stripped == "" {
      r := formatted + [""];
    } else {
      var lineEsc := EscapeMdV2(stripped);
      r := formatted + [lineEsc];
    }
  }

  /** Number of numbered headings among the stripped lines. */
  function CountHeadings(lines: seq<string>): nat
  {
    if lines == [] then 0
    else (if IsNumberedHeading(Strip(lines[0])) then 1 else 0) + CountHeadings(lines[1..])
  }

  /** Each input line gives one output line, and a heading one more. */
  lemma {:induction false} FormatAllLength(lines: seq<string>)
    ensures |FormatAll(lines)| == |lines| + CountHeadings(lines)
    decreases |lines|
  {
    if lines != [] {
      FormatAllLength(lines[1..]);
    }
  }

  /** A stripped line holds no character the line does not hold. */
  lemma StripKeepsOut(line: string, c: char)
    requires c !in line
    ensures c !in Strip(line)
  {
    var t := Strip(line);
    forall i | 0 <= i < |t| ensures t[i] != c {
      assert t[i] == line[StripOffset(line) + i];
    }
  }

  /** A stripped line free of line breaks gives lines free of line breaks. */
  lemma FormatStrippedNoBreak(t: string)
    requires '\n' !in t
    ensures forall k :: 0 <= k < |FormatStripped(t)| ==> '\n' !in FormatStripped(t)[k]
  {
    EscapeAddsOnlyBackslash(t, '\n');
  }

  lemma {:induction false} FormatAllNoBreak(lines: seq<string>)
    requires forall k :: 0 <= k < |lines| ==> '\n' !in lines[k]
    ensures forall k :: 0 <= k < |FormatAll(lines)| ==> '\n' !in FormatAll(lines)[k]
    decreases |lines|
  {
    if lines != [] {
      StripKeepsOut(lines[0], '\n');
      FormatStrippedNoBreak(Strip(lines[0]));
      FormatAllNoBreak(lines[1..]);
      NoBreakConcat(FormatLine(lines[0]), FormatAll(lines[1..]));
    }
  }

  lemma NoBreakConcat(a: seq<string>, b: seq<string>)
    requires forall k :: 0 <= k < |a| ==> '\n' !in a[k]
    requires forall k :: 0 <= k < |b| ==> '\n' !in b[k]
    ensures forall k :: 0 <= k < |a + b| ==> '\n' !in (a + b)[k]
  {
  }

  /** The formatted report has one line per input line plus one blank line
      after each numbered heading, and its lines are the formatted lines. */
  lemma ReportLines(text: string)
    ensures SplitOn(FormatReport(text), '\n') == FormatAll(SplitOn(text, '\n'))
    ensures |SplitOn(FormatReport(text), '\n')|
            == |SplitOn(text, '\n')| + CountHeadings(SplitOn(text, '\n'))
  {
    var lines := SplitOn(text, '\n');
    SplitPiecesFree(text, '\n');
    FormatAllNoBreak(lines);
    FormatAllLength(lines);
    SplitJoin(FormatAll(lines), '\n');
  }

  // ---------------------------------------------------------------------
  // Reading a formatted report back

  /** A formatted heading starts with `*`, a sub-item with a space. */
  predicate IsHeadingPiece(p: string) {
    p != [] && p[0] == '*'
  }

  predicate IsBulletPiece(p: string) {
    p != [] && p[0] == ' '
  }

  /** The stripped text an output line was made from. */
  function DecodeLine(p: string): string
  {
    if IsHeadingPiece(p) && |p| >= 4 then Unescape(p[3..|p| - 1])
    else if IsBulletPiece(p) && |p| >= 6 then Unescape(p[6..])
    else Unescape(p)
  }

  /** The stripped input lines a formatted report was made from: each output
      line is decoded, and the blank line after a heading is skipped. */
  function DecodeAll(pieces: seq<string>): seq<string>
  {
    if pieces == [] then []
    else if IsHeadingPiece(pieces[0]) && |pieces| >= 2 then
      [DecodeLine(pieces[0])] + DecodeAll(pieces[2..])
    else [DecodeLine(pieces[0])] + DecodeAll(pieces[1..])
  }

  /** Every line, stripped. */
  function StripAll(lines: seq<string>): (r: seq<string>)
    ensures |r| == |lines|
  {
    if lines == [] then [] else [Strip(lines[0])] + StripAll(lines[1..])
  }

  /** A stripped line's output decodes to that line, and only a heading's
      output is recognised as a heading. */
  lemma DecodeFormatStripped(t: string)
    requires t == [] || !IsSpace(t[0])
    ensures DecodeLine(FormatStripped(t)[0]) == t
    ensures IsHeadingPiece(FormatStripped(t)[0]) <==> |FormatStripped(t)| == 2
  {
    var e := EscapeMdV2(t);
    UnescapeEscape(t);
    if IsNumberedHeading(t) {
      HeadingDecodes(e);
    } else if StartsWith(t, "- ") {
      BulletDecodes(e);
    } else if t != "" {
      PlainDecodes(e);
    }
  }

  lemma HeadingDecodes(e: string)
    ensures var p := "*" + [HeadingMark, ' '] + e + "*";
            IsHeadingPiece(p) && DecodeLine(p) == Unescape(e)
  {
    var p := "*" + [HeadingMark, ' '] + e + "*";
    assert p[3..|p| - 1] == e;
  }

  lemma BulletDecodes(e: string)
    ensures var p := "    " + [BulletMark, ' '] + e;
            !IsHeadingPiece(p) && DecodeLine(p) == Unescape(e)
  {
    var p := "    " + [BulletMark, ' '] + e;
    assert p[6..] == e;
  }

  lemma PlainDecodes(e: string)
    requires e != [] && e[0] != '*' && e[0] != ' '
    ensures !IsHeadingPiece(e) && DecodeLine(e) == Unescape(e)
  {
  }

  /** Decoding the formatted lines gives back every stripped input line. */
  lemma {:induction false} DecodeFormatAll(lines: seq<string>)
    ensures DecodeAll(FormatAll(lines)) == StripAll(lines)
    decreases |lines|
  {
    if lines != [] {
      DecodeFormatAll(lines[1..]);
      DecodeFormatStripped(Strip(lines[0]));
      var f := FormatLine(lines[0]);
      var rest := FormatAll(lines[1..]);
      DecodeSplice(f, rest, Strip(lines[0]), StripAll(lines[1..]));
    }
  }

  /** Decoding one line's output followed by the rest. */
  lemma DecodeSplice(f: seq<string>, rest: seq<string>, t: string, ts: seq<string>)
    requires 1 <= |f| <= 2
    requires DecodeLine(f[0]) == t && DecodeAll(rest) == ts
    requires IsHeadingPiece(f[0]) <==> |f| == 2
    ensures DecodeAll(f + rest) == [t] + ts
  {
    var all := f + rest;
    assert all[0] == f[0];
    if |f| == 2 {
      assert all[2..] == rest;
    } else {
      assert all[1..] == rest;
    }
  }

  /** Reading the formatted report back, line by line, gives the stripped
      lines of the original text. */
  lemma ReportRoundTrip(text: string)
    ensures DecodeAll(SplitOn(FormatReport(text), '\n')) == StripAll(SplitOn(text, '\n'))
  {
    ReportLines(text);
    DecodeFormatAll(SplitOn(text, '\n'));
  }
}
