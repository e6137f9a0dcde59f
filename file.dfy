/**
 * The file tools of src/tools/file.ts: `read_file` with its optional line
 * ranges, `write_file`, `list_dir`, and their registration. What the file
 * system answers is a parameter: the file's text or its absence, whether a
 * write threw, the names a directory scan produced.
 */
module FileTools {
  import opened Common
  import opened AgentLoop
  import opened Registry

  /** What `Bun.file(path)` gives: no file, its text, or an error thrown while reading. */
  datatype FileRead = NoFile | FileText(text: string) | ReadThrew(message: string)

  /** One name found by the directory scan and whether `Bun.file` reported a size for it. */
  datatype ScannedName = ScannedName(name: string, sizeDefined: bool)

  datatype DirEntry = DirEntry(name: string, isDirectory: bool, path: string)

  /** The records the three tools return. */
  datatype FileResult =
    | ReadOk(content: string, path: string, size: nat, success: bool)
    | WriteOk(path: string, bytesWritten: nat, success: bool)
    | Listed(path: string, entries: seq<DirEntry>, count: nat, success: bool)
    | FileFailed(error: string, path: string, success: bool)

  /** A requested range `[start, end]`, 1-based and inclusive. */
  datatype LineRange = LineRange(start: int, end: int)

  /**
   * `lines[i]`: the line, or the empty string where JavaScript gives
   * `undefined` (an index below 0 or past the end), which `join` writes as "".
   */
  function LineAt(lines: seq<string>, i: int): string {
    if 0 <= i < |lines| then lines[i] else ""
  }

  function Min(a: int, b: int): int {
    if a <= b then a else b
  }

  /** The lines the inner loop picks for one range: `i` from `start` while `i <= end` and `i <= lines.length`. */
  function Span(lines: seq<string>, r: LineRange): (s: seq<string>)
    ensures |s| == if Min(r.end, |lines|) < r.start then 0 else Min(r.end, |lines|) - r.start + 1
    ensures forall k :: 0 <= k < |s| ==> s[k] == LineAt(lines, r.start + k - 1)
  {
    var hi := Min(r.end, |lines|);
    if hi < r.start then [] else seq(hi - r.start + 1, k => LineAt(lines, r.start + k - 1))
  }

  /** The lines all ranges pick, range after range. */
  function Selected(lines: seq<string>, ranges: seq<LineRange>): seq<string>
    decreases |ranges|
  {
    if ranges == [] then [] else Selected(lines, ranges[..|ranges| - 1]) + Span(lines, Last(ranges))
  }

  /** The content `read_file` returns for a file's text. */
  function ReadContent(text: string, lineRanges: Option<seq<LineRange>>): string {
    if lineRanges.Some? && |lineRanges.value| > 0 then Join(Selected(Split(text, '\n'), lineRanges.value), "\n")
    else text
  }

  /** `read_file` */
  method ReadFile(path: string, lineRanges: Option<seq<LineRange>>, file: FileRead) returns (r: FileResult)
    ensures file.NoFile? ==> r == FileFailed("File not found", path, false)
    ensures file.ReadThrew? ==> r == FileFailed(file.message, path, false)
    ensures file.FileText? ==> r.ReadOk? && r.success && r.path == path &&
                               r.content == ReadContent(file.text, lineRanges) && r.size == |r.content|
  {
    match file {
      case NoFile =>
        return FileFailed("File not found", path, false);
      case ReadThrew(message) =>
        return FileFailed(message, path, false);
      case FileText(text) =>
        var content := text;
        if lineRanges.Some? && |lineRanges.value| > 0 {
          var lines := Split(content, '\n');
          var selectedLines := SelectLines(lines, lineRanges.value);
          content := Join(selectedLines, "\n");
        }
        return ReadOk(content, path, |content|, true);
    }
  }

  /** The nested loops of `read_file`: every range in order, every line of the range in order. */
  method SelectLines(lines: seq<string>, ranges: seq<LineRange>) returns (selectedLines: seq<string>)
    ensures selectedLines == Selected(lines, ranges)
  {
    selectedLines := [];
    var k := 0;
    while k < |ranges|
      invariant 0 <= k <= |ranges|
      invariant selectedLines == Selected(lines, ranges[..k])
    {
      selectedLines := PushSpan(selectedLines, lines, ranges[k]);
      assert ranges[..k + 1][..k] == ranges[..k];
      k := k + 1;
    }
    assert ranges[..|ranges|] == ranges;
  }

  /** The inner loop of `read_file`: the lines of one range pushed one by one. */
  method PushSpan(selectedLines: seq<string>, lines: seq<string>, r: LineRange) returns (pushed: seq<string>)
    ensures pushed == selectedLines + Span(lines, r)
  {
    pushed := selectedLines;
    var i := r.start;
    while i <= r.end && i <= |lines|
      invariant r.start <= i && (i == r.start || i - 1 <= Min(r.end, |lines|))
      invariant pushed == selectedLines + Span(lines, LineRange(r.start, i - 1))
      decreases |lines| + 1 - i
    {
      SpanSnoc(lines, r.start, i);
      pushed := pushed + [LineAt(lines, i - 1)];
      i := i + 1;
    }
    assert Span(lines, LineRange(r.start, i - 1)) == Span(lines, r);
  }

  /** A span one line longer ends with that line. */
  lemma SpanSnoc(lines: seq<string>, start: int, i: int)
    requires start <= i <= |lines|
    ensures Span(lines, LineRange(start, i)) == Span(lines, LineRange(start, i - 1)) + [LineAt(lines, i - 1)]
  {
    var longer, shorter := Span(lines, LineRange(start, i)), Span(lines, LineRange(start, i - 1));
    assert |longer| == |shorter| + 1;
    forall k | 0 <= k < |shorter| ensures longer[k] == shorter[k] {
    }
  }

  /** `write_file`: `write` is the message of what `Bun.write` threw, if it did. */
  function WriteFile(path: string, content: string, write: Option<string>): (r: FileResult)
    ensures write.None? ==> r == WriteOk(path, |content|, true)
    ensures write.Some? ==> r == FileFailed(write.value, path, false)
  {
    match write
    case None => WriteOk(path, |content|, true)
    case Some(message) => FileFailed(message, path, false)
  }

  /** The record `list_dir` builds for one scanned name. */
  function Entry(dir: string, n: ScannedName): DirEntry {
    DirEntry(n.name, !n.sizeDefined, dir + "/" + n.name)
  }

  /** `list_dir`: one entry per scanned name, in order, or the message of what the scan threw. */
  function ListDir(path: string, scan: Result<seq<ScannedName>, string>): (r: FileResult)
    ensures scan.Err? ==> r == FileFailed(scan.error, path, false)
    ensures scan.Ok? ==> r.Listed? && r.success && r.path == path && r.count == |r.entries| == |scan.value|
    ensures scan.Ok? ==> forall i :: 0 <= i < |scan.value| ==>
              r.entries[i] == DirEntry(scan.value[i].name, !scan.value[i].sizeDefined, path + "/" + scan.value[i].name)
  {
    match scan
    case Err(message) => FileFailed(message, path, false)
    case Ok(names) =>
      var entries := seq(|names|, i requires 0 <= i < |names| => Entry(path, names[i]));
      Listed(path, entries, |entries|, true)
  }

  const ReadFileTool := Tool("read_file", "Read the contents of a file, optionally with line ranges",
                             JObj([("path", JStr("string")), ("line_ranges", JStr("number[][]"))]))
  const WriteFileTool := Tool("write_file", "Write content to a file (creates or overwrites)",
                              JObj([("path", JStr("string")), ("content", JStr("string"))]))
  const ListDirTool := Tool("list_dir", "List files and directories in a path",
                            JObj([("path", JStr("string"))]))

  /** `registerFileTools` */
  method RegisterFileTools(registry: ToolRegistry)
    requires registry.Valid()
    modifies registry
    ensures registry.Valid()
    ensures registry.tools == old(registry.tools)["read_file" := ReadFileTool]["write_file" := WriteFileTool]["list_dir" := ListDirTool]
    ensures registry.tools.Keys == old(registry.tools.Keys) + {"read_file", "write_file", "list_dir"}
    ensures registry.order == old(registry.order) + NewNames(["read_file", "write_file", "list_dir"], old(registry.tools))
  {
    ghost var o0, t0 := registry.order, registry.tools;
    assert ReadFileTool.name == "read_file" && WriteFileTool.name == "write_file" && ListDirTool.name == "list_dir";
    registry.Register(ReadFileTool);
    ghost var o1, t1 := registry.order, registry.tools;
    registry.Register(WriteFileTool);
    ghost var o2, t2 := registry.order, registry.tools;
    registry.Register(ListDirTool);
    ThreeRegistrations(ReadFileTool, WriteFileTool, ListDirTool, o0, t0, o1, t1, o2, t2, registry.order, registry.tools);
  }

  /** The key order after registering the three file tools one after another. */
  lemma ThreeRegistrations(a: Tool, b: Tool, c: Tool,
                           o0: seq<string>, t0: map<string, Tool>, o1: seq<string>, t1: map<string, Tool>,
                           o2: seq<string>, t2: map<string, Tool>, o3: seq<string>, t3: map<string, Tool>)
    requires t1 == t0["read_file" := a] && o1 == if "read_file" in t0 then o0 else o0 + ["read_file"]
    requires t2 == t1["write_file" := b] && o2 == if "write_file" in t1 then o1 else o1 + ["write_file"]
    requires t3 == t2["list_dir" := c] && o3 == if "list_dir" in t2 then o2 else o2 + ["list_dir"]
    ensures t3.Keys == t0.Keys + {"read_file", "write_file", "list_dir"}
    ensures o3 == o0 + NewNames(["read_file", "write_file", "list_dir"], t0)
  {
    NewNamesOne("read_file", t0);
    NewNamesOne("write_file", t0);
    NewNamesOne("list_dir", t0);
    assert "write_file" in t1 <==> "write_file" in t0;
    assert "list_dir" in t2 <==> "list_dir" in t0;
    FileToolNames(t0);
    AppendThree(o0, o1, o2, o3, NewNames(["read_file"], t0), NewNames(["write_file"], t0), NewNames(["list_dir"], t0));
  }

  lemma FileToolNames(tools: map<string, Tool>)
    ensures NewNames(["read_file", "write_file", "list_dir"], tools)
         == NewNames(["read_file"], tools) + NewNames(["write_file"], tools) + NewNames(["list_dir"], tools)
  {
    NewNamesAppend(["read_file"], ["write_file"], tools);
    NewNamesAppend(["read_file", "write_file"], ["list_dir"], tools);
    assert ["read_file"] + ["write_file"] == ["read_file", "write_file"];
    assert ["read_file", "write_file"] + ["list_dir"] == ["read_file", "write_file", "list_dir"];
  }

  lemma AppendThree(o0: seq<string>, o1: seq<string>, o2: seq<string>, o3: seq<string>, a: seq<string>, b: seq<string>, c: seq<string>)
    requires o1 == o0 + a && o2 == o1 + b && o3 == o2 + c
    ensures o3 == o0 + (a + b + c)
  {
  }

  // ---------------------------------------------------------------- properties

  /** A range starting at line 1 or later is the slice of lines `start` to `min(end, lineCount)`; past that bound it is empty. */
  lemma SpanIsSlice(lines: seq<string>, r: LineRange)
    requires r.start >= 1
    ensures r.start > Min(r.end, |lines|) ==> Span(lines, r) == []
    ensures r.start <= Min(r.end, |lines|) ==> Span(lines, r) == lines[r.start - 1..Min(r.end, |lines|)]
  {
  }

  /** Ranges are read in the order given and their lines concatenated, so overlapping ranges repeat lines. */
  lemma {:induction false} SelectedAppend(lines: seq<string>, a: seq<LineRange>, b: seq<LineRange>)
    ensures Selected(lines, a + b) == Selected(lines, a) + Selected(lines, b)
    decreases |b|
  {
    if b == [] {
      assert a + b == a;
    } else {
      var front := b[..|b| - 1];
      assert (a + b)[..|a + b| - 1] == a + front;
      assert Last(a + b) == Last(b);
      SelectedAppend(lines, a, front);
      calc {
        Selected(lines, a + b);
        Selected(lines, a + front) + Span(lines, Last(b));
        Selected(lines, a) + Selected(lines, front) + Span(lines, Last(b));
        Selected(lines, a) + (Selected(lines, front) + Span(lines, Last(b)));
        Selected(lines, a) + Selected(lines, b);
      }
    }
  }

  /** Without ranges, or with an empty list of them, the whole text is returned. */
  lemma WholeFileWithoutRanges(text: string, lineRanges: Option<seq<LineRange>>)
    requires lineRanges.None? || lineRanges.value == []
    ensures ReadContent(text, lineRanges) == text
  {
  }

  /** Overlapping ranges over three lines: [1,2] then [2,3] gives lines 1, 2, 2, 3; a range past the end gives nothing. */
  lemma OverlapRepeats(l1: string, l2: string, l3: string)
    ensures Selected([l1, l2, l3], [LineRange(1, 2), LineRange(2, 3)]) == [l1, l2, l2, l3]
    ensures Selected([l1, l2, l3], [LineRange(4, 9)]) == []
    ensures Selected([l1, l2, l3], [LineRange(2, 99)]) == [l2, l3]
  {
    var lines := [l1, l2, l3];
    var rs := [LineRange(1, 2), LineRange(2, 3)];
    SelectedAppend(lines, [rs[0]], [rs[1]]);
    assert [rs[0]] + [rs[1]] == rs;
    assert [LineRange(4, 9)][..0] == [];
    assert [LineRange(2, 99)][..0] == [];
    assert [rs[0]][..0] == [] && [rs[1]][..0] == [];
  }
}
