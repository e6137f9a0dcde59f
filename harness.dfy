/**
 * `isHarnessFile` of src/utils/harness-logger.ts: whether a path names one
 * of the agent's own state files, judged by its last '/'-separated segment.
 */
module HarnessFiles {
  import opened Common

  /** The segment after the last '/': `path.split("/").pop()`, never absent since a split is never empty. */
  function FileName(path: string): (n: string)
    ensures |n| <= |path| && path[|path| - |n|..] == n && '/' !in n
    ensures '/' !in path ==> n == path
  {
    SplitLastIsSuffix(path, '/');
    if '/' in path then Last(Split(path, '/'))
    else SplitNoSep(path, '/'); Last(Split(path, '/'))
  }

  /** The path is `name` itself or ends in '/' followed by `name`. */
  predicate NamesFile(path: string, name: string) {
    path == name || (|path| > |name| && path[|path| - |name|..] == name && path[|path| - |name| - 1] == '/')
  }

  /** True exactly for "self.md" and "memories.md", bare or after a '/'. */
  function IsHarnessFile(path: string): (b: bool)
    ensures b <==> NamesFile(path, "self.md") || NamesFile(path, "memories.md")
  {
    assert '/' !in "self.md" && '/' !in "memories.md";
    FileNameIs(path, "self.md");
    FileNameIs(path, "memories.md");
    var fileName := FileName(path);
    fileName == "self.md" || fileName == "memories.md"
  }

  // ---------------------------------------------------------------- properties

  /** The last segment is the whole path when it has no '/', and otherwise the text after its last '/'. */
  lemma {:induction false} FileNameIsSuffix(path: string)
    ensures var n := FileName(path);
            |n| <= |path| && path[|path| - |n|..] == n && '/' !in n &&
            (|Split(path, '/')| == 1 ==> n == path) &&
            (|Split(path, '/')| > 1 ==> |n| < |path| && path[|path| - |n| - 1] == '/')
    decreases |path|
  {
    if path != [] {
      var rest := Split(path[1..], '/');
      FileNameIsSuffix(path[1..]);
      if path[0] != '/' && |rest| == 1 {
        assert Split(path, '/') == [[path[0]] + rest[0]];
        assert [path[0]] + path[1..] == path;
      }
    }
  }

  /** A slash-free name is the last segment exactly when the path names that file. */
  lemma FileNameIs(path: string, name: string)
    requires '/' !in name
    ensures FileName(path) == name <==> NamesFile(path, name)
  {
    FileNameIsSuffix(path);
    if path == name {
      SplitNoSep(name, '/');
    } else if NamesFile(path, name) {
      var dir := path[..|path| - |name| - 1];
      assert path == dir + ['/'] + name;
      SplitLastAppend(dir, name, '/');
    }
  }

  /** Directory parts are ignored: only the file name decides. */
  lemma DirectoryIgnored(dir: string, file: string)
    requires '/' !in file
    ensures IsHarnessFile(dir + "/" + file) == IsHarnessFile(file)
  {
    SplitLastAppend(dir, file, '/');
    SplitNoSep(file, '/');
  }

  /** A path ending in '/' has an empty last segment and is never a harness file. */
  lemma TrailingSlashNever(dir: string)
    ensures !IsHarnessFile(dir + "/")
  {
    SplitLastAppend(dir, "", '/');
    assert dir + "/" == dir + ['/'] + "";
  }

  /** Names that only contain a target are not targets, and the directory does not matter. */
  lemma HarnessScenarios(self: string, nested: string, lookalike: string, backup: string)
    requires self == "self.md" && nested == "/home/agent/self.md"
    requires lookalike == "myself.md" && backup == "self.md.bak"
    ensures IsHarnessFile(self) && IsHarnessFile(nested)
    ensures !IsHarnessFile(lookalike) && !IsHarnessFile(backup)
  {
    assert nested[|nested| - 7..] == "self.md" && nested[|nested| - 8] == '/';
    assert lookalike[1] != '/';
    assert backup[|backup| - 7] != 's' && |backup| - 11 == 0 && backup[0] != 'm';
  }
}
