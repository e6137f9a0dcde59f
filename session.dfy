/**
 * Session-file naming of src/utils/session.ts: the default directory and
 * the file name built from the current time's ISO-8601 string. Creating
 * the directory and the empty file is I/O and is not modelled; the home
 * directory and `new Date().toISOString()` are parameters.
 */
module Session {
  import opened Common

  /** A segment `path.normalize` keeps as it is: non-empty, neither "." nor "..". */
  predicate Plain(segment: string) {
    segment != "" && segment != "." && segment != ".."
  }

  /**
   * The segments `normalizeString` keeps: empty and "." segments are dropped, and
   * ".." removes the segment before it; with nothing to remove it is kept when the
   * path may climb above its start (a relative path) and dropped otherwise.
   */
  function Resolve(segments: seq<string>, aboveRoot: bool): (r: seq<string>)
    ensures forall i :: 0 <= i < |r| ==> r[i] != "" && r[i] != "."
    decreases |segments|
  {
    if segments == [] then []
    else ResolveStep(Resolve(segments[..|segments| - 1], aboveRoot), segments[|segments| - 1], aboveRoot)
  }

  /** One segment of `normalizeString` applied to the segments kept so far. */
  function ResolveStep(done: seq<string>, s: string, aboveRoot: bool): (r: seq<string>)
    requires forall i :: 0 <= i < |done| ==> done[i] != "" && done[i] != "."
    ensures forall i :: 0 <= i < |r| ==> r[i] != "" && r[i] != "."
  {
    if s == "" || s == "." then done
    else if s == ".." then
      if |done| > 0 && done[|done| - 1] != ".." then done[..|done| - 1]
      else if aboveRoot then done + [".."]
      else done
    else done + [s]
  }

  /** `path.normalize` (POSIX): the resolved segments, with the leading and the trailing '/' kept; "." for nothing. */
  function Normalize(p: string): (n: string)
    ensures n != ""
  {
    if p == "" then "."
    else
      var absolute := p[0] == '/';
      var trailing := p[|p| - 1] == '/';
      var body := Join(Resolve(Split(p, '/'), !absolute), "/");
      if body == "" then (if absolute then "/" else if trailing then "./" else ".")
      else (if absolute then "/" else "") + body + (if trailing then "/" else "")
  }

  /** The parts that are not empty strings, in order. */
  function NonEmpty(parts: seq<string>): (r: seq<string>)
    ensures forall x :: x in r <==> x in parts && x != ""
  {
    if parts == [] then [] else (if parts[0] == "" then [] else [parts[0]]) + NonEmpty(parts[1..])
  }

  lemma {:induction false} NonEmptyKeepsAll(parts: seq<string>)
    requires forall i :: 0 <= i < |parts| ==> parts[i] != ""
    ensures NonEmpty(parts) == parts
    decreases |parts|
  {
    if parts != [] {
      NonEmptyKeepsAll(parts[1..]);
    }
  }

  /** `path.join` (POSIX): the non-empty parts joined by '/', then normalised; "." when every part is empty. */
  function JoinPath(parts: seq<string>): (p: string)
    ensures p != ""
  {
    var joined := Join(NonEmpty(parts), "/");
    if joined == "" then "." else Normalize(joined)
  }

  /** A directory `path.join` leaves as it is: its segments are plain, after the empty one a leading '/' makes. */
  predicate Clean(dir: string) {
    var segments := Split(dir, '/');
    && (Plain(segments[0]) || (segments[0] == "" && |segments| > 1))
    && forall i :: 1 <= i < |segments| ==> Plain(segments[i])
  }

  /** `getDefaultSessionsDir`: `.tui-agent/sessions` under a clean home directory. */
  function GetDefaultSessionsDir(home: string): (d: string)
    ensures Clean(home) ==> d == home + "/.tui-agent/sessions" && Clean(d)
  {
    assert Clean(home) ==>
             JoinPath([home, ".tui-agent", "sessions"]) == home + "/.tui-agent/sessions" &&
             Clean(home + "/.tui-agent/sessions") by {
      if Clean(home) {
        DefaultDirJoin(home);
      }
    }
    JoinPath([home, ".tui-agent", "sessions"])
  }

  predicate IsDigit(c: char) {
    '0' <= c <= '9'
  }

  /** Whether `s` ends in the match of `/\.\d{3}Z$/`. */
  predicate EndsWithMillis(s: string) {
    |s| >= 5 && s[|s| - 5] == '.' && IsDigit(s[|s| - 4]) && IsDigit(s[|s| - 3]) && IsDigit(s[|s| - 2]) && s[|s| - 1] == 'Z'
  }

  /** The timestamp part of the name: every ':' becomes '-', then a trailing ".dddZ" is dropped. */
  function SessionTimestamp(iso: string): (t: string)
    ensures ':' !in t
    ensures '/' !in iso ==> '/' !in t
  {
    var dashed := ReplaceChar(iso, ':', "-");
    ReplaceCharRemoves(iso, ':', "-");
    assert '/' !in iso ==> '/' !in dashed by {
      if '/' !in iso {
        ReplaceCharKeepsAbsent(iso, ':', "-", '/');
      }
    }
    if EndsWithMillis(dashed) then dashed[..|dashed| - 5] else dashed
  }

  function SessionFileName(iso: string): (name: string)
    ensures ':' !in name
    ensures "session_" <= name && |name| >= 11 && name[|name| - 3..] == ".md"
    ensures '/' !in iso ==> '/' !in name
  {
    "session_" + SessionTimestamp(iso) + ".md"
  }

  /**
   * The path `createSessionFile` returns: the given directory, or the default one,
   * joined with the file name. An ISO string never holds a '/', so for a clean
   * directory the file lands directly inside it.
   */
  function SessionFilePath(directory: Option<string>, home: string, iso: string): (path: string)
    ensures '/' !in iso && directory.Some? && Clean(directory.value) ==>
              path == directory.value + "/" + SessionFileName(iso)
    ensures '/' !in iso && directory.None? && Clean(home) ==>
              path == home + "/.tui-agent/sessions/" + SessionFileName(iso)
  {
    var dir := if directory.Some? then directory.value else GetDefaultSessionsDir(home);
    var name := SessionFileName(iso);
    assert '/' !in iso && Clean(dir) ==> JoinPath([dir, name]) == dir + "/" + name by {
      if '/' !in iso && Clean(dir) {
        CleanJoin(dir, name);
      }
    }
    assert directory.None? && Clean(home) ==> Clean(dir) && dir + "/" + name == home + "/.tui-agent/sessions/" + name by {
      if directory.None? && Clean(home) {
        DefaultDirSlash(home, name);
      }
    }
    JoinPath([dir, name])
  }

  // ---------------------------------------------------------------- properties

  lemma {:induction false} ResolvePlain(segments: seq<string>, aboveRoot: bool)
    requires forall i :: 0 <= i < |segments| ==> Plain(segments[i])
    ensures Resolve(segments, aboveRoot) == segments
    decreases |segments|
  {
    if segments != [] {
      ResolvePlain(segments[..|segments| - 1], aboveRoot);
    }
  }

  lemma {:induction false} ResolveDropsLeadingEmpty(rest: seq<string>, aboveRoot: bool)
    ensures Resolve([""] + rest, aboveRoot) == Resolve(rest, aboveRoot)
    decreases |rest|
  {
    if rest != [] {
      var xs := [""] + rest;
      var init := rest[..|rest| - 1];
      assert xs[..|xs| - 1] == [""] + init;
      assert xs[|xs| - 1] == rest[|rest| - 1];
      ResolveDropsLeadingEmpty(init, aboveRoot);
      assert Resolve(xs[..|xs| - 1], aboveRoot) == Resolve(init, aboveRoot);
    } else {
      assert [""] + rest == [""];
      assert [""][..0] == [];
    }
  }

  lemma ResolveSnocPlain(segments: seq<string>, name: string, aboveRoot: bool)
    requires Plain(name)
    ensures Resolve(segments + [name], aboveRoot) == Resolve(segments, aboveRoot) + [name]
  {
    assert (segments + [name])[..|segments|] == segments;
  }

  /** Two non-empty parts are joined with one '/' before normalising. */
  lemma JoinTwo(a: string, b: string)
    requires a != "" && b != ""
    ensures JoinPath([a, b]) == Normalize(a + "/" + b)
  {
    NonEmptyKeepsAll([a, b]);
    assert [a, b][1..] == [b];
    assert Join([a, b], "/") == a + "/" + Join([b], "/");
  }

  /** Three non-empty parts are joined with a '/' between each two before normalising. */
  lemma JoinThree(a: string, b: string, c: string)
    requires a != "" && b != "" && c != ""
    ensures JoinPath([a, b, c]) == Normalize(a + "/" + b + "/" + c)
  {
    NonEmptyKeepsAll([a, b, c]);
    assert [a, b, c][1..] == [b, c];
    assert [b, c][1..] == [c];
    assert Join([c], "/") == c;
    assert Join([b, c], "/") == b + "/" + c;
    assert Join([a, b, c], "/") == a + "/" + (b + "/" + c);
    assert a + "/" + (b + "/" + c) == a + "/" + b + "/" + c;
  }

  /** The segments of a clean directory followed by a plain name. */
  lemma SplitSnoc(dir: string, name: string)
    requires '/' !in name
    ensures Split(dir + "/" + name, '/') == Split(dir, '/') + [name]
  {
    SplitConcat(dir, name, '/');
    SplitNoSep(name, '/');
  }

  /** Normalising a clean relative directory followed by a plain name changes nothing. */
  lemma NormalizeRelative(dir: string, name: string)
    requires Clean(dir) && Plain(name) && '/' !in name && dir[0] != '/'
    ensures Normalize(dir + "/" + name) == dir + "/" + name
  {
    var p := dir + "/" + name;
    var segments := Split(dir, '/');
    RelativeResolved(dir, name);
    assert p[0] == dir[0] && p[|p| - 1] == name[|name| - 1];
    JoinSnoc(segments, name, "/");
    JoinSplit(dir, '/');
    NormalizeRelativeIs(p, dir + "/" + name);
  }

  /** The segments `normalizeString` keeps for a clean relative directory followed by a plain name. */
  lemma RelativeResolved(dir: string, name: string)
    requires Clean(dir) && Plain(name) && '/' !in name && dir[0] != '/'
    ensures Resolve(Split(dir + "/" + name, '/'), true) == Split(dir, '/') + [name]
  {
    var segments := Split(dir, '/');
    SplitSnoc(dir, name);
    SplitFirstEmpty(dir, '/');
    ResolveSnocPlain(segments, name, true);
    ResolvePlain(segments, true);
  }

  /** Normalising a clean absolute directory followed by a plain name changes nothing. */
  lemma NormalizeAbsolute(dir: string, name: string)
    requires Clean(dir) && Plain(name) && '/' !in name && dir != "" && dir[0] == '/'
    ensures Normalize(dir + "/" + name) == dir + "/" + name
  {
    var p := dir + "/" + name;
    var rest := Split(dir, '/')[1..];
    AbsoluteResolved(dir, name);
    assert p[0] == '/' && p[|p| - 1] == name[|name| - 1];
    JoinSnoc(rest, name, "/");
    JoinSplit(dir[1..], '/');
    NormalizeAbsoluteIs(p, dir[1..] + "/" + name);
    assert "/" + (dir[1..] + "/" + name) == dir + "/" + name;
  }

  /** The segments `normalizeString` keeps for a clean absolute directory followed by a plain name. */
  lemma AbsoluteResolved(dir: string, name: string)
    requires Clean(dir) && Plain(name) && '/' !in name && dir != "" && dir[0] == '/'
    ensures |Split(dir, '/')| > 1
    ensures Resolve(Split(dir + "/" + name, '/'), false) == Split(dir, '/')[1..] + [name]
  {
    var segments := Split(dir, '/');
    var rest := segments[1..];
    SplitSnoc(dir, name);
    AbsoluteSegments(dir);
    ResolveSnocPlain(segments, name, false);
    ResolveDropsLeadingEmpty(rest, false);
    ResolvePlain(rest, false);
  }

  lemma NormalizeAbsoluteIs(p: string, out: string)
    requires p != "" && p[0] == '/' && p[|p| - 1] != '/'
    requires Join(Resolve(Split(p, '/'), false), "/") == out && out != ""
    ensures Normalize(p) == "/" + out
  {
  }

  /** The segments of a clean absolute directory: the empty one, then those of the rest. */
  lemma AbsoluteSegments(dir: string)
    requires Clean(dir) && dir != "" && dir[0] == '/'
    ensures var segments := Split(dir, '/');
            segments[0] == "" && segments == [""] + segments[1..] && segments[1..] == Split(dir[1..], '/') &&
            |segments| > 1 && forall i :: 0 <= i < |segments[1..]| ==> Plain(segments[1..][i])
  {
    assert Split(dir, '/') == [""] + Split(dir[1..], '/');
  }

  /** A clean directory followed by a plain name is clean. */
  lemma CleanSnoc(dir: string, name: string)
    requires Clean(dir) && Plain(name) && '/' !in name
    ensures Clean(dir + "/" + name)
  {
    SplitSnoc(dir, name);
    var segments := Split(dir, '/');
    var all := segments + [name];
    forall i | 1 <= i < |all| ensures Plain(all[i]) {
      if i < |segments| {
        assert all[i] == segments[i];
      }
    }
  }

  /** Joining a plain name onto a clean directory puts exactly one '/' between them, and the result is clean again. */
  lemma CleanJoin(dir: string, name: string)
    requires Clean(dir) && Plain(name) && '/' !in name
    ensures JoinPath([dir, name]) == dir + "/" + name
    ensures Clean(dir + "/" + name)
  {
    assert dir != "";
    JoinTwo(dir, name);
    if dir[0] == '/' {
      NormalizeAbsolute(dir, name);
    } else {
      NormalizeRelative(dir, name);
    }
    CleanSnoc(dir, name);
  }

  /** The default directory: two plain names joined onto the home directory. */
  lemma DefaultDirJoin(home: string)
    requires Clean(home)
    ensures JoinPath([home, ".tui-agent", "sessions"]) == home + "/.tui-agent/sessions"
    ensures Clean(home + "/.tui-agent/sessions")
  {
    var a, b := ".tui-agent", "sessions";
    assert Plain(a) && Plain(b) && '/' !in a && '/' !in b;
    CleanJoinTwo(home, a, b);
    assert "/" + a + "/" + b == "/.tui-agent/sessions";
    assert home + "/" + a + "/" + b == home + ("/" + a + "/" + b);
  }

  /** Two plain names joined onto a clean directory, each after one '/'. */
  lemma CleanJoinTwo(dir: string, a: string, b: string)
    requires Clean(dir) && Plain(a) && Plain(b) && '/' !in a && '/' !in b
    ensures JoinPath([dir, a, b]) == dir + "/" + a + "/" + b
    ensures Clean(dir + "/" + a + "/" + b)
  {
    assert dir != "";
    CleanJoin(dir, a);
    var mid := dir + "/" + a;
    CleanJoin(mid, b);
    JoinTwo(mid, b);
    JoinThree(dir, a, b);
  }

  lemma DefaultDirSlash(home: string, name: string)
    ensures home + "/.tui-agent/sessions" + "/" + name == home + "/.tui-agent/sessions/" + name
  {
    assert "/.tui-agent/sessions" + "/" == "/.tui-agent/sessions/";
  }

  /** A colon-free piece is kept as it is. */
  lemma KeepPiece(p: string, x: string)
    requires ':' !in x
    ensures ReplaceChar(p + x, ':', "-") == ReplaceChar(p, ':', "-") + x
  {
    ReplaceCharAppend(p, x, ':', "-");
    ReplaceCharAbsent(x, ':', "-");
  }

  /** A colon becomes a dash. */
  lemma DashColon(p: string)
    ensures ReplaceChar(p + ":", ':', "-") == ReplaceChar(p, ':', "-") + "-"
  {
    ReplaceCharAppend(p, ":", ':', "-");
    assert ReplaceChar(":", ':', "-") == "-";
  }

  /** A trailing `.dddZ` is recognised and cut off. */
  lemma StripMillis(stem: string, ms: string)
    requires |ms| == 3 && IsDigit(ms[0]) && IsDigit(ms[1]) && IsDigit(ms[2])
    ensures EndsWithMillis(stem + "." + ms + "Z")
    ensures (stem + "." + ms + "Z")[..|stem + "." + ms + "Z"| - 5] == stem
  {
    var s := stem + "." + ms + "Z";
    assert s[|s| - 5] == '.' && s[|s| - 4] == ms[0] && s[|s| - 3] == ms[1] && s[|s| - 2] == ms[2] && s[|s| - 1] == 'Z';
    assert s[..|s| - 5] == stem;
  }

  lemma TimestampOf(iso: string, stem: string, ms: string)
    requires |ms| == 3 && IsDigit(ms[0]) && IsDigit(ms[1]) && IsDigit(ms[2])
    requires ReplaceChar(iso, ':', "-") == stem + "." + ms + "Z"
    ensures SessionFileName(iso) == "session_" + stem + ".md"
  {
    StripMillis(stem, ms);
  }

  /** The colons between the clock fields become dashes; the fields themselves are kept. */
  lemma DashTime(date: string, hh: string, mm: string, ss: string)
    requires ':' !in date && ':' !in hh && ':' !in mm && ':' !in ss
    ensures ReplaceChar(date + "T" + hh + ":" + mm + ":" + ss, ':', "-") == date + "T" + hh + "-" + mm + "-" + ss
  {
    ReplaceCharAbsent(date, ':', "-");
    KeepPiece(date, "T");
    KeepPiece(date + "T", hh);
    DashColon(date + "T" + hh);
    KeepPiece(date + "T" + hh + ":", mm);
    DashColon(date + "T" + hh + ":" + mm);
    KeepPiece(date + "T" + hh + ":" + mm + ":", ss);
  }

  /** The `.dddZ` tail has no colon to replace. */
  lemma KeepMillis(p: string, ms: string)
    requires ':' !in ms
    ensures ReplaceChar(p + "." + ms + "Z", ':', "-") == ReplaceChar(p, ':', "-") + "." + ms + "Z"
  {
    KeepPiece(p, ".");
    KeepPiece(p + ".", ms);
    KeepPiece(p + "." + ms, "Z");
  }

  lemma MillisNoColon(ms: string)
    requires |ms| == 3 && IsDigit(ms[0]) && IsDigit(ms[1]) && IsDigit(ms[2])
    ensures ':' !in ms
  {
    assert ms == [ms[0], ms[1], ms[2]];
  }

  /**
   * For an ISO string `<date>T<hh>:<mm>:<ss>.<ms>Z`, the name is
   * `session_<date>T<hh>-<mm>-<ss>.md`: the colons become dashes and the
   * milliseconds and the `Z` are gone.
   */
  lemma NameOfIsoString(date: string, hh: string, mm: string, ss: string, ms: string)
    requires ':' !in date && ':' !in hh && ':' !in mm && ':' !in ss
    requires |ms| == 3 && IsDigit(ms[0]) && IsDigit(ms[1]) && IsDigit(ms[2])
    ensures SessionFileName(date + "T" + hh + ":" + mm + ":" + ss + "." + ms + "Z")
            == "session_" + (date + "T" + hh + "-" + mm + "-" + ss) + ".md"
  {
    MillisNoColon(ms);
    var clock := date + "T" + hh + ":" + mm + ":" + ss;
    DashTime(date, hh, mm, ss);
    KeepMillis(clock, ms);
    TimestampOf(clock + "." + ms + "Z", date + "T" + hh + "-" + mm + "-" + ss, ms);
  }

  lemma JoinPair(a: string, b: string)
    ensures Join([a, b], "/") == a + "/" + b
  {
    assert [a, b][1..] == [b];
  }

  /** A relative path without a trailing '/' normalises to its resolved segments. */
  lemma NormalizeRelativeIs(p: string, out: string)
    requires p != "" && p[0] != '/' && p[|p| - 1] != '/'
    requires Join(Resolve(Split(p, '/'), true), "/") == out && out != ""
    ensures Normalize(p) == out
  {
  }

  lemma DotSegments(p: string, segments: seq<string>)
    requires p == "./tmp/x.md" && segments == [".", "tmp", "x.md"]
    ensures Split(p, '/') == segments
    ensures Resolve(segments, true) == segments[1..]
  {
    assert segments[1..] == ["tmp", "x.md"] && segments[1..][1..] == ["x.md"];
    assert Join(["x.md"], "/") == "x.md";
    assert Join(segments[1..], "/") == "tmp" + "/" + "x.md";
    assert Join(segments, "/") == "." + "/" + ("tmp" + "/" + "x.md");
    assert p == "." + "/" + ("tmp" + "/" + "x.md");
    SplitJoin(segments, '/');
    assert segments[..2] == [".", "tmp"] && segments[..2][..1] == ["."] && ["."][..0] == [];
    assert Resolve(["."], true) == [];
    assert Resolve([".", "tmp"], true) == ["tmp"];
    assert Resolve(segments, true) == ["tmp", "x.md"];
  }

  /** `path.join` drops "." segments: "./tmp" and "x.md" give "tmp/x.md". */
  lemma JoinDropsDot(dir: string, name: string)
    requires dir == "./tmp" && name == "x.md"
    ensures JoinPath([dir, name]) == "tmp/x.md"
  {
    JoinTwo(dir, name);
    var p := dir + "/" + name;
    assert p == "./tmp/x.md" by {
      assert dir + "/" + name == "./tmp" + "/" + "x.md";
    }
    DotSegments(p, [".", "tmp", "x.md"]);
    JoinPair("tmp", "x.md");
    NormalizeRelativeIs(p, "tmp/x.md");
  }

  lemma ParentSegments(p: string, segments: seq<string>)
    requires p == "/a/b/../c" && segments == ["", "a", "b", "..", "c"]
    ensures Split(p, '/') == segments
    ensures Resolve(segments, false) == ["a", "c"]
  {
    assert segments[1..] == ["a", "b", "..", "c"];
    assert ["a", "b", "..", "c"][1..] == ["b", "..", "c"];
    assert ["b", "..", "c"][1..] == ["..", "c"];
    assert ["..", "c"][1..] == ["c"];
    assert Join(["c"], "/") == "c";
    assert Join(["..", "c"], "/") == ".." + "/" + "c";
    assert Join(["b", "..", "c"], "/") == "b" + "/" + (".." + "/" + "c");
    assert Join(["a", "b", "..", "c"], "/") == "a" + "/" + ("b" + "/" + (".." + "/" + "c"));
    assert Join(segments, "/") == "" + "/" + ("a" + "/" + ("b" + "/" + (".." + "/" + "c")));
    assert p == "" + "/" + ("a" + "/" + ("b" + "/" + (".." + "/" + "c")));
    SplitJoin(segments, '/');
    assert segments[..4] == ["", "a", "b", ".."];
    assert ["", "a", "b", ".."][..3] == ["", "a", "b"];
    assert ["", "a", "b"][..2] == ["", "a"];
    assert ["", "a"][..1] == [""];
    assert [""][..0] == [];
    assert Resolve([""], false) == [];
    assert Resolve(["", "a"], false) == ["a"];
    assert Resolve(["", "a", "b"], false) == ["a", "b"];
    assert ["a", "b"][..1] == ["a"];
    assert Resolve(["", "a", "b", ".."], false) == ["a"];
  }

  /** `path.join` resolves "..": "/a/b/.." and "c" give "/a/c". */
  lemma JoinResolvesParent(dir: string, name: string)
    requires dir == "/a/b/.." && name == "c"
    ensures JoinPath([dir, name]) == "/a/c"
  {
    JoinTwo(dir, name);
    var p := dir + "/" + name;
    assert p == "/a/b/../c";
    ParentSegments(p, ["", "a", "b", "..", "c"]);
    JoinPair("a", "c");
    assert p[0] == '/' && p[|p| - 1] == 'c';
    assert Normalize(p) == "/" + ("a" + "/" + "c");
  }
}
