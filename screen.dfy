/**
 * The text transformations of scripts/generate-initial-screen.tsx: the
 * captured frame is normalised, then embedded verbatim in the README's
 * text fence and HTML-escaped inside the docs page's `<pre>`. Rendering
 * the frame, removing ANSI sequences and writing the three files are not
 * part of this model; the frame arrives here with ANSI sequences removed.
 */
module InitialScreen {
  import opened Common

  /** JavaScript's `\s` and the set `trimEnd` removes: white space and line terminators. */
  predicate IsSpace(c: char) {
    var n := c as int;
    (9 <= n <= 13) || n == 0x20 || n == 0xA0 || n == 0x1680 || (0x2000 <= n <= 0x200A) ||
    n == 0x2028 || n == 0x2029 || n == 0x202F || n == 0x205F || n == 0x3000 || n == 0xFEFF
  }

  /** `replace(/\r\n/g, "\n")` */
  function ReplaceCrLf(s: string): string
    decreases |s|
  {
    if s == [] then []
    else if |s| >= 2 && s[0] == '\r' && s[1] == '\n' then "\n" + ReplaceCrLf(s[2..])
    else [s[0]] + ReplaceCrLf(s[1..])
  }

  /** `replace(/^\n+/, "")` */
  function DropLeadingNewlines(s: string): string
    decreases |s|
  {
    if s != [] && s[0] == '\n' then DropLeadingNewlines(s[1..]) else s
  }

  /** `trimEnd()`, and `replace(/\s+$/g, "")`, which removes the same characters. */
  function TrimEnd(s: string): (t: string)
    ensures t <= s
    ensures t == [] || !IsSpace(t[|t| - 1])
    ensures forall i :: |t| <= i < |s| ==> IsSpace(s[i])
    decreases |s|
  {
    if s != [] && IsSpace(s[|s| - 1]) then TrimEnd(s[..|s| - 1]) else s
  }

  function TrimLines(lines: seq<string>): (r: seq<string>)
    ensures |r| == |lines| && forall i :: 0 <= i < |lines| ==> r[i] == TrimEnd(lines[i])
  {
    if lines == [] then [] else [TrimEnd(lines[0])] + TrimLines(lines[1..])
  }

  /** `normalizeFrame`, after ANSI sequences are stripped. */
  function NormalizeFrame(frame: string): (screen: string)
    ensures |screen| >= 1 && screen[|screen| - 1] == '\n'
  {
    var lines := Split(DropLeadingNewlines(ReplaceCrLf(frame)), '\n');
    TrimEnd(Join(TrimLines(lines), "\n")) + "\n"
  }

  /** Every line break is preceded by another line break or by a character that is not white space. */
  predicate LinesTrimmed(s: string) {
    forall i :: 0 <= i < |s| - 1 && s[i + 1] == '\n' ==> s[i] == '\n' || !IsSpace(s[i])
  }

  function EscapeChar(c: char): string {
    if c == '&' then "&amp;"
    else if c == '<' then "&lt;"
    else if c == '>' then "&gt;"
    else if c == '"' then "&quot;"
    else if c == '\'' then "&#39;"
    else [c]
  }

  /**
   * `escapeHtml`: each character is replaced by its own escape, so the result
   * holds none of < > " ' and decoding the entities gives the value back.
   */
  function EscapeHtml(value: string): (e: string)
    ensures e == EscapeEach(value)
    ensures '<' !in e && '>' !in e && '"' !in e && '\'' !in e
    ensures Unescape(e) == value
  {
    ReplacementsPerChar(value);
    EscapeEachNoSpecials(value);
    UnescapeEach(value);
    Replacements(value)
  }

  /** The five replacements of `escapeHtml`, '&' first. */
  function Replacements(value: string): string {
    ReplaceChar(ReplaceChar(ReplaceChar(ReplaceChar(ReplaceChar(value, '&', "&amp;"), '<', "&lt;"), '>', "&gt;"), '"', "&quot;"), '\'', "&#39;")
  }

  /** Reference escaping, one character at a time. */
  function EscapeEach(value: string): string {
    if value == [] then [] else EscapeChar(value[0]) + EscapeEach(value[1..])
  }

  /** Decoding of the five entities `escapeHtml` writes. */
  function Unescape(s: string): string
    decreases |s|
  {
    if s == [] then []
    else if "&amp;" <= s then "&" + Unescape(s[5..])
    else if "&lt;" <= s then "<" + Unescape(s[4..])
    else if "&gt;" <= s then ">" + Unescape(s[4..])
    else if "&quot;" <= s then "\"" + Unescape(s[6..])
    else if "&#39;" <= s then "'" + Unescape(s[5..])
    else [s[0]] + Unescape(s[1..])
  }

  const Title := "TUI Agent CLI"
  const ReadmeHead := "# " + Title + "\n\n## Initial Screen\n\n```text\n"
  const ReadmeTail := "```\n" + "\n## Install\n\n```bash\nbun install\nbun run dev\n```\n"

  /**
   * `buildReadme`: the screen verbatim right after the opening text fence; a
   * screen ending in a line break leaves the closing fence on its own line.
   */
  function BuildReadme(screen: string): (r: string)
    ensures |r| == |ReadmeHead| + |screen| + |ReadmeTail| && |ReadmeTail| >= 4
    ensures ReadmeHead <= r && r[|ReadmeHead| - 8..|ReadmeHead|] == "```text\n"
    ensures r[|ReadmeHead|..|ReadmeHead| + |screen|] == screen
    ensures |screen| >= 1 && screen[|screen| - 1] == '\n' ==>
              r[|ReadmeHead| + |screen| - 1..|ReadmeHead| + |screen| + 4] == "\n```\n"
  {
    var r := ReadmeHead + screen + ReadmeTail;
    var h, n := |ReadmeHead|, |screen|;
    assert r[h..h + n] == screen;
    assert r[h + n..h + n + 4] == ReadmeTail[..4];
    assert n >= 1 ==> r[h + n - 1..h + n + 4] == [r[h + n - 1]] + r[h + n..h + n + 4];
    r
  }

  const DocsHead :=
    "<!DOCTYPE html>\n<html lang=\"en\">\n<head>\n  <meta charset=\"UTF-8\">\n" +
    "  <meta name=\"viewport\" content=\"width=device-width, initial-scale=1.0\">\n" +
    "  <title>" + Title + "</title>\n</head>\n<body>\n  <h1>" + Title + "</h1>\n" +
    "  <h2>Initial Screen</h2>\n  <pre>"
  const DocsTail :=
    "</pre>" + "\n  <h2>Install</h2>\n  <pre>bun install\nbun run dev</pre>\n</body>\n</html>\n"

  /**
   * `buildDocsHtml`: the escaped screen between `<pre>` and `</pre>`; no '<'
   * inside can end the block early, and decoding gives the screen back.
   */
  function BuildDocsHtml(screen: string): (h: string)
    ensures |h| == |DocsHead| + |EscapeHtml(screen)| + |DocsTail|
    ensures DocsHead <= h && h[|h| - |DocsTail|..] == DocsTail
    ensures var inner := h[|DocsHead|..|h| - |DocsTail|];
            inner == EscapeHtml(screen) && '<' !in inner && Unescape(inner) == screen
    ensures DocsHead[|DocsHead| - 5..] == "<pre>" && DocsTail[..6] == "</pre>"
  {
    var h := DocsHead + EscapeHtml(screen) + DocsTail;
    assert h[|DocsHead|..|h| - |DocsTail|] == EscapeHtml(screen);
    var preamble := "<!DOCTYPE html>\n<html lang=\"en\">\n<head>\n  <meta charset=\"UTF-8\">\n" +
      "  <meta name=\"viewport\" content=\"width=device-width, initial-scale=1.0\">\n" +
      "  <title>" + Title + "</title>\n</head>\n<body>\n  <h1>" + Title + "</h1>\n" + "  <h2>Initial Screen</h2>\n  ";
    assert DocsHead == preamble + "<pre>";
    h
  }

  // ---------------------------------------------------------------- escaping

  lemma ReplaceOne(c: char, x: char, r: string)
    ensures ReplaceChar([c], x, r) == if c == x then r else [c]
  {
    assert [c][1..] == [];
  }

  /** The stages after the one that fires leave its entity alone. */
  lemma LaterStagesKeep(e: string, from: nat)
    requires from <= 4
    requires from <= 0 ==> '<' !in e
    requires from <= 1 ==> '>' !in e
    requires from <= 2 ==> '"' !in e
    requires from <= 3 ==> '\'' !in e
    ensures from == 0 ==> ReplaceChar(ReplaceChar(ReplaceChar(ReplaceChar(e, '<', "&lt;"), '>', "&gt;"), '"', "&quot;"), '\'', "&#39;") == e
    ensures from == 1 ==> ReplaceChar(ReplaceChar(ReplaceChar(e, '>', "&gt;"), '"', "&quot;"), '\'', "&#39;") == e
    ensures from == 2 ==> ReplaceChar(ReplaceChar(e, '"', "&quot;"), '\'', "&#39;") == e
    ensures from == 3 ==> ReplaceChar(e, '\'', "&#39;") == e
  {
    if from <= 0 { ReplaceCharAbsent(e, '<', "&lt;"); }
    if from <= 1 { ReplaceCharAbsent(e, '>', "&gt;"); }
    if from <= 2 { ReplaceCharAbsent(e, '"', "&quot;"); }
    if from <= 3 { ReplaceCharAbsent(e, '\'', "&#39;"); }
  }

  lemma EscapeOne(c: char)
    ensures Replacements([c]) == EscapeChar(c)
  {
    ReplaceOne(c, '&', "&amp;");
    if c == '&' {
      LaterStagesKeep("&amp;", 0);
    } else {
      ReplaceOne(c, '<', "&lt;");
      if c == '<' {
        LaterStagesKeep("&lt;", 1);
      } else {
        ReplaceOne(c, '>', "&gt;");
        if c == '>' {
          LaterStagesKeep("&gt;", 2);
        } else {
          ReplaceOne(c, '"', "&quot;");
          if c == '"' {
            LaterStagesKeep("&quot;", 3);
          } else {
            ReplaceOne(c, '\'', "&#39;");
          }
        }
      }
    }
  }

  /** The replacement chain maps each character to its own escape: '&' goes first, so nothing is escaped twice. */
  lemma {:induction false} ReplacementsPerChar(value: string)
    ensures Replacements(value) == EscapeEach(value)
    decreases |value|
  {
    if value != [] {
      var head, rest := [value[0]], value[1..];
      assert value == head + rest;
      var s1h, s1r := ReplaceChar(head, '&', "&amp;"), ReplaceChar(rest, '&', "&amp;");
      ReplaceCharAppend(head, rest, '&', "&amp;");
      var s2h, s2r := ReplaceChar(s1h, '<', "&lt;"), ReplaceChar(s1r, '<', "&lt;");
      ReplaceCharAppend(s1h, s1r, '<', "&lt;");
      var s3h, s3r := ReplaceChar(s2h, '>', "&gt;"), ReplaceChar(s2r, '>', "&gt;");
      ReplaceCharAppend(s2h, s2r, '>', "&gt;");
      var s4h, s4r := ReplaceChar(s3h, '"', "&quot;"), ReplaceChar(s3r, '"', "&quot;");
      ReplaceCharAppend(s3h, s3r, '"', "&quot;");
      ReplaceCharAppend(s4h, s4r, '\'', "&#39;");
      assert Replacements(value) == Replacements(head) + Replacements(rest);
      EscapeOne(value[0]);
      ReplacementsPerChar(rest);
    }
  }

  lemma {:induction false} EscapeEachNoSpecials(value: string)
    ensures var e := EscapeEach(value);
            '<' !in e && '>' !in e && '"' !in e && '\'' !in e
    decreases |value|
  {
    if value != [] {
      EscapeCharClean(value[0]);
      EscapeEachNoSpecials(value[1..]);
    }
  }

  lemma EscapeCharClean(c: char)
    ensures var e := EscapeChar(c);
            '<' !in e && '>' !in e && '"' !in e && '\'' !in e
  {
  }

  lemma UnescapeOne(c: char, t: string)
    ensures Unescape(EscapeChar(c) + t) == [c] + Unescape(t)
  {
    var e := EscapeChar(c) + t;
    assert |EscapeChar(c)| > 1 ==> e[1] == EscapeChar(c)[1];
    if c == '&' {
      assert "&amp;" <= e && e[5..] == t;
    } else if c == '<' {
      assert !("&amp;" <= e) && "&lt;" <= e && e[4..] == t;
    } else if c == '>' {
      assert !("&amp;" <= e) && !("&lt;" <= e) && "&gt;" <= e && e[4..] == t;
    } else if c == '"' {
      assert !("&amp;" <= e) && !("&lt;" <= e) && !("&gt;" <= e) && "&quot;" <= e && e[6..] == t;
    } else if c == '\'' {
      assert !("&amp;" <= e) && !("&lt;" <= e) && !("&gt;" <= e) && !("&quot;" <= e) && "&#39;" <= e && e[5..] == t;
    } else {
      assert e[0] == c && e[1..] == t;
    }
  }

  lemma {:induction false} UnescapeEach(value: string)
    ensures Unescape(EscapeEach(value)) == value
    decreases |value|
  {
    if value != [] {
      UnescapeOne(value[0], EscapeEach(value[1..]));
      UnescapeEach(value[1..]);
      assert [value[0]] + value[1..] == value;
    }
  }

  // ---------------------------------------------------------------- normalising

  lemma {:induction false} SplitPartsFree(s: string, c: char)
    ensures forall i :: 0 <= i < |Split(s, c)| ==> c !in Split(s, c)[i]
    decreases |s|
  {
    if s != [] {
      SplitPartsFree(s[1..], c);
    }
  }

  /** Lines without a break and without trailing white space, joined by breaks, satisfy `LinesTrimmed`. */
  lemma {:induction false} JoinTrimmed(lines: seq<string>)
    requires forall i :: 0 <= i < |lines| ==> '\n' !in lines[i] && (lines[i] == [] || !IsSpace(lines[i][|lines[i]| - 1]))
    ensures LinesTrimmed(Join(lines, "\n"))
    decreases |lines|
  {
    if |lines| > 1 {
      JoinTrimmed(lines[1..]);
      var l := lines[0];
      var rest := Join(lines[1..], "\n");
      var j := Join(lines, "\n");
      assert j == l + "\n" + rest;
      forall i | 0 <= i < |j| - 1 && j[i + 1] == '\n' ensures j[i] == '\n' || !IsSpace(j[i]) {
        if i + 1 == |l| {
          assert j[i] == l[|l| - 1];
        } else if i > |l| {
          assert j[i] == rest[i - |l| - 1] && j[i + 1] == rest[i - |l|];
        }
      }
    }
  }

  /** The normalised frame is some text without trailing white space, then one line break. */
  lemma NormalizeEndsCleanly(frame: string)
    ensures var r := NormalizeFrame(frame);
            |r| >= 1 && r[|r| - 1] == '\n' &&
            var s := r[..|r| - 1]; s == [] || !IsSpace(s[|s| - 1])
  {
    var r := NormalizeFrame(frame);
    assert r[..|r| - 1] == TrimEnd(Join(TrimLines(Split(DropLeadingNewlines(ReplaceCrLf(frame)), '\n')), "\n"));
  }

  /** No line of the normalised frame ends in white space; in particular no "\r\n" is left. */
  lemma NormalizeTrimsLines(frame: string)
    ensures LinesTrimmed(NormalizeFrame(frame))
    ensures var r := NormalizeFrame(frame);
            forall i :: 0 <= i < |r| - 1 ==> !(r[i] == '\r' && r[i + 1] == '\n')
  {
    var parts := Split(DropLeadingNewlines(ReplaceCrLf(frame)), '\n');
    SplitPartsFree(DropLeadingNewlines(ReplaceCrLf(frame)), '\n');
    var lines := TrimLines(parts);
    forall i | 0 <= i < |lines| ensures '\n' !in lines[i] && (lines[i] == [] || !IsSpace(lines[i][|lines[i]| - 1])) {
      assert lines[i] <= parts[i];
    }
    JoinTrimmed(lines);
    var j := Join(lines, "\n");
    var t := TrimEnd(j);
    var r := t + "\n";
    assert r == NormalizeFrame(frame);
    forall i | 0 <= i < |r| - 1 && r[i + 1] == '\n' ensures r[i] == '\n' || !IsSpace(r[i]) {
      if i + 1 < |t| {
        assert r[i] == j[i] && r[i + 1] == j[i + 1];
      }
    }
  }

  lemma {:induction false} ReplaceCrLfNoReturn(s: string)
    requires '\r' !in s
    ensures ReplaceCrLf(s) == s
    decreases |s|
  {
    if s != [] {
      ReplaceCrLfNoReturn(s[1..]);
      assert [s[0]] + s[1..] == s;
    }
  }

  /** Splitting text whose line breaks all follow a non-white character gives lines without trailing white space. */
  lemma {:induction false} SplitTrimmedParts(s: string)
    requires LinesTrimmed(s)
    requires s == [] || s[|s| - 1] == '\n' || !IsSpace(s[|s| - 1])
    ensures forall i :: 0 <= i < |Split(s, '\n')| ==> Split(s, '\n')[i] == [] || !IsSpace(Last(Split(s, '\n')[i]))
    decreases |s|
  {
    if s != [] {
      var tail := s[1..];
      assert LinesTrimmed(tail) by {
        forall i | 0 <= i < |tail| - 1 && tail[i + 1] == '\n' ensures tail[i] == '\n' || !IsSpace(tail[i]) {
          assert tail[i] == s[i + 1] && tail[i + 1] == s[i + 2];
        }
      }
      assert tail != [] ==> tail[|tail| - 1] == s[|s| - 1];
      SplitTrimmedParts(tail);
      var rest := Split(tail, '\n');
      if s[0] != '\n' {
        var parts := Split(s, '\n');
        assert parts == [[s[0]] + rest[0]] + rest[1..];
        if rest[0] == [] && tail != [] {
          SplitFirstEmpty(tail, '\n');
          assert s[1] == '\n';
        }
        forall i | 0 <= i < |parts| ensures parts[i] == [] || !IsSpace(Last(parts[i])) {
          if i > 0 {
            assert parts[i] == rest[i];
          }
        }
      }
    }
  }

  /**
   * A frame that is already normal (no carriage return, no leading line
   * break, no line and no end with trailing white space) comes back as
   * itself followed by one line break.
   */
  lemma NormalFrameUnchanged(frame: string)
    requires '\r' !in frame
    requires frame == [] || frame[0] != '\n'
    requires LinesTrimmed(frame)
    requires frame == [] || !IsSpace(frame[|frame| - 1])
    ensures NormalizeFrame(frame) == frame + "\n"
  {
    ReplaceCrLfNoReturn(frame);
    assert DropLeadingNewlines(frame) == frame;
    var parts := Split(frame, '\n');
    SplitTrimmedParts(frame);
    var lines := TrimLines(parts);
    forall i | 0 <= i < |parts| ensures lines[i] == parts[i] {
      assert parts[i] == [] || !IsSpace(Last(parts[i]));
    }
    assert lines == parts;
    JoinSplit(frame, '\n');
    assert Join(lines, "\n") == frame;
  }

  // ---------------------------------------------------------------- embedding

  /** The README holds the normalised screen verbatim inside the text fence, and the closing fence starts its own line. */
  lemma ReadmeEmbedsScreen(frame: string)
    ensures var screen := NormalizeFrame(frame);
            var r := BuildReadme(screen);
            r[|ReadmeHead|..|ReadmeHead| + |screen|] == screen &&
            r[|ReadmeHead| + |screen| - 1..|ReadmeHead| + |screen| + 4] == "\n```\n"
  {
  }
}
