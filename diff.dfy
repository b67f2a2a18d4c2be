/** `protool.diff`: load two profiles, optionally drop some keys, stage
    the two texts as temporary files and run a diff tool over them. */
module ProfileDiff {
  import opened Wrappers
  import opened Plist
  import Text
  import Paths
  import opened Protool

  /** The diff tool: `opendiff` unless another command is given. */
  function DiffTool(toolOverride: Option<string>): (tool: string)
    ensures toolOverride.Some? ==> tool == toolOverride.value
    ensures toolOverride.None? ==> tool == "opendiff"
  {
    if toolOverride.None? then "opendiff" else toolOverride.value
  }

  // ----- ignored keys -------------------------------------------------------

  /** `m` after `del m[key]` for each key in turn, a missing key being
      skipped. */
  function WithoutKeys(m: map<string, Value>, keys: seq<string>): map<string, Value> {
    if keys == [] then m
    else WithoutKeys(m, keys[..|keys| - 1]) - {keys[|keys| - 1]}
  }

  /** Exactly the ignored keys are gone; every other entry keeps its value,
      so deleting in a different order, deleting a key twice or deleting a
      key that is not there makes no difference. */
  lemma {:induction false} WithoutKeysRemovesExactly(m: map<string, Value>, keys: seq<string>, k: string)
    ensures k in WithoutKeys(m, keys) <==> k in m && k !in keys
    ensures k in WithoutKeys(m, keys) ==> WithoutKeys(m, keys)[k] == m[k]
  {
    if keys != [] {
      var init := keys[..|keys| - 1];
      WithoutKeysRemovesExactly(m, init, k);
      assert keys == init + [keys[|keys| - 1]];
    }
  }

  /** Only the set of ignored keys matters, not their order or repetition. */
  lemma IgnoredKeyOrderIsIrrelevant(m: map<string, Value>, keys1: seq<string>, keys2: seq<string>)
    requires forall k :: k in keys1 <==> k in keys2
    ensures WithoutKeys(m, keys1) == WithoutKeys(m, keys2)
  {
    forall k ensures (k in WithoutKeys(m, keys1) <==> k in WithoutKeys(m, keys2))
      && (k in WithoutKeys(m, keys1) ==> WithoutKeys(m, keys1)[k] == WithoutKeys(m, keys2)[k])
    {
      WithoutKeysRemovesExactly(m, keys1, k);
      WithoutKeysRemovesExactly(m, keys2, k);
    }
  }

  /** Two profiles that differ only under ignored keys compare equal. */
  lemma IgnoredKeysEqualize(a: map<string, Value>, b: map<string, Value>, keys: seq<string>)
    requires forall k :: k !in keys ==> (k in a <==> k in b)
    requires forall k :: k !in keys && k in a && k in b ==> a[k] == b[k]
    ensures WithoutKeys(a, keys) == WithoutKeys(b, keys)
  {
    forall k ensures (k in WithoutKeys(a, keys) <==> k in WithoutKeys(b, keys))
      && (k in WithoutKeys(a, keys) ==> WithoutKeys(a, keys)[k] == WithoutKeys(b, keys)[k])
    {
      WithoutKeysRemovesExactly(a, keys, k);
      WithoutKeysRemovesExactly(b, keys, k);
    }
  }

  /** The ignore loop of `diff`: delete every ignored key from both copies. */
  method DropIgnoredKeys(a: map<string, Value>, b: map<string, Value>, keys: seq<string>)
    returns (a': map<string, Value>, b': map<string, Value>)
    ensures a' == WithoutKeys(a, keys) && b' == WithoutKeys(b, keys)
  {
    a', b' := a, b;
    var i := 0;
    while i < |keys|
      invariant 0 <= i <= |keys|
      invariant a' == WithoutKeys(a, keys[..i]) && b' == WithoutKeys(b, keys[..i])
    {
      var key := keys[i];
      assert keys[..i + 1][..i] == keys[..i];
      if key in a' {
        a' := a' - {key};
      }
      if key in b' {
        b' := b' - {key};
      }
      i := i + 1;
    }
    assert keys[..i] == keys;
  }

  /** The text `diff` compares for a loaded profile: its `xml` when no key
      is ignored, otherwise its contents re-serialised (with sorted keys)
      after the ignored keys are deleted. */
  function ComparedText(env: Environment, l: Loaded, ignoreKeys: Option<seq<string>>): string {
    if ignoreKeys.None? then l.xml
    else env.dumps(Dict(WithoutKeys(l.contents, ignoreKeys.value)), true)
  }

  /** Ignoring an empty list of keys compares the same text as ignoring
      none, once keys are sorted. */
  lemma IgnoringNoKeysIsSortedXml(env: Environment, path: string)
    requires ReadProfile(env, path, true).Ok?
    ensures var l := ReadProfile(env, path, true).value;
      ComparedText(env, l, Some([])) == ComparedText(env, l, None)
  {
    var l := ReadProfile(env, path, true).value;
    assert WithoutKeys(l.contents, []) == l.contents;
    var text := Text.Strip(env.securityCms(path).value);
    match env.loads(text) {
      case Some(Dict(m)) => assert l.xml == env.dumps(Dict(l.contents), true);
      case _ =>
    }
  }

  /** Once keys are ignored, the `sort_keys` flag has no effect on what is
      compared. */
  lemma IgnoringKeysOverridesSortOrder(env: Environment, path: string, keys: seq<string>)
    requires ReadProfile(env, path, true).Ok?
    ensures ReadProfile(env, path, false).Ok?
    ensures ComparedText(env, ReadProfile(env, path, true).value, Some(keys))
         == ComparedText(env, ReadProfile(env, path, false).value, Some(keys))
  {
    SortingKeepsContents(env, path);
  }

  // ----- staging the two texts ---------------------------------------------

  /** The temporary files handed to the diff tool: file contents by path,
      and the two paths on its command line. */
  datatype Staging = Staging(files: map<string, string>, aPath: string, bPath: string)

  /** Staging as `diff` does it: both files directly in the temporary
      directory under their own base names, `b` written second. */
  function StageAsWritten(tempDir: string, aName: string, aText: string,
                          bName: string, bText: string): Staging
  {
    var aPath := Paths.Join(tempDir, aName);
    var bPath := Paths.Join(tempDir, bName);
    Staging(map[aPath := aText][bPath := bText], aPath, bPath)
  }

  /** Two profiles with the same base name (two versions of one app's
      profile in different directories, say) are staged at the same path:
      the second write replaces the first, and the tool compares `b` with
      itself, whatever `a` holds. */
  lemma SameNameClobbers(tempDir: string, name: string, aText: string, bText: string)
    ensures var st := StageAsWritten(tempDir, name, aText, name, bText);
      && st.aPath == st.bPath
      && st.files[st.aPath] == bText && st.files[st.bPath] == bText
  {
  }

  /** The sub-directories that keep the two staged files apart. */
  const SideA: string := "a"
  const SideB: string := "b"

  /** `tempDir/side/name`. */
  function SidePath(tempDir: string, side: string, name: string): string {
    Paths.Join(Paths.Join(tempDir, side), name)
  }

  /** A one-letter sub-directory followed by an entry name: the letter
      sits at a position that depends on `tempDir` alone, and the base name
      is the entry name. */
  lemma SidePathShape(tempDir: string, side: string, name: string)
    requires |side| == 1 && side[0] != '/' && Paths.IsEntryName(name)
    ensures var n := if tempDir == [] || tempDir[|tempDir| - 1] == '/' then |tempDir| else |tempDir| + 1;
      var p := SidePath(tempDir, side, name);
      && n < |p| && p[n] == side[0]
      && Paths.BaseName(p) == name
  {
    var dir := Paths.Join(tempDir, side);
    assert dir[|dir| - 1] == side[0];
    assert SidePath(tempDir, side, name) == dir + "/" + name;
    Paths.BaseNameOfJoin(dir, name);
  }

  /** Staging that keeps both files: as `diff` does it when the base names
      differ; when they are equal, each file in its own sub-directory of
      the temporary directory, still under its own base name. */
  function Stage(tempDir: string, aName: string, aText: string,
                 bName: string, bText: string): (st: Staging)
    requires Paths.IsEntryName(aName) && Paths.IsEntryName(bName)
    ensures st.aPath != st.bPath
    ensures st.files == map[st.aPath := aText, st.bPath := bText]
    ensures Paths.BaseName(st.aPath) == aName && Paths.BaseName(st.bPath) == bName
    ensures aName != bName ==> st == StageAsWritten(tempDir, aName, aText, bName, bText)
  {
    if aName != bName then
      Paths.BaseNameOfJoin(tempDir, aName);
      Paths.BaseNameOfJoin(tempDir, bName);
      StageAsWritten(tempDir, aName, aText, bName, bText)
    else
      var aPath := SidePath(tempDir, SideA, aName);
      var bPath := SidePath(tempDir, SideB, bName);
      SidePathShape(tempDir, SideA, aName);
      SidePathShape(tempDir, SideB, bName);
      Staging(map[aPath := aText, bPath := bText], aPath, bPath)
  }

  // ----- running the tool ---------------------------------------------------

  /** The shell command: the tool, unquoted so that it may carry its own
      arguments, then the two paths in double quotes. */
  function DiffCommand(tool: string, aPath: string, bPath: string): (cmd: string)
    ensures |cmd| == |tool| + |aPath| + |bPath| + 6
    ensures cmd[..|tool|] == tool
    ensures cmd[|tool|..|tool| + 2] == " \""
    ensures cmd[|tool| + 2..|tool| + 2 + |aPath|] == aPath
    ensures cmd[|tool| + 2 + |aPath|..|tool| + 5 + |aPath|] == "\" \""
    ensures cmd[|cmd| - |bPath| - 1..|cmd| - 1] == bPath
    ensures cmd[|cmd| - 1] == '"'
  {
    tool + " \"" + aPath + "\" \"" + bPath + "\""
  }

  /** What `diff` returns for the tool's outcome: the stripped output on a
      zero exit, the raw output of the `CalledProcessError` otherwise; only
      a shell that cannot be started at all raises. */
  function RenderedOutput(res: RenderResult): (r: Result<string, Error>)
    ensures res.LaunchFailed? <==> r.Err?
    ensures r.Err? ==> r.error == RendererUnavailable
    ensures res.Exited? && res.status == 0 ==> r == Ok(Text.Strip(res.stdout))
    ensures res.Exited? && res.status != 0 ==> r == Ok(res.stdout)
  {
    match res
    case LaunchFailed => Err(RendererUnavailable)
    case Exited(status, out) => if status == 0 then Ok(Text.Strip(out)) else Ok(out)
  }

  /** The whole of `diff`, as a value: `a` is loaded first, then `b`; the
      texts to compare are staged (apart, even under equal base names) and
      the tool run over them. */
  function DiffOutcome(env: Environment, aPath: string, bPath: string, sortKeys: bool,
                       ignoreKeys: Option<seq<string>>, toolOverride: Option<string>): Result<string, Error>
  {
    match ReadProfile(env, env.absPath(aPath), sortKeys)
    case Err(e) => Err(e)
    case Ok(la) =>
      match ReadProfile(env, env.absPath(bPath), sortKeys)
      case Err(e) => Err(e)
      case Ok(lb) =>
        var aName := Paths.BaseName(env.absPath(aPath));
        var bName := Paths.BaseName(env.absPath(bPath));
        if aName == [] then Err(CannotWriteTempFile(aPath))
        else if bName == [] then Err(CannotWriteTempFile(bPath))
        else
          var st := Stage(env.tempDir, aName, ComparedText(env, la, ignoreKeys),
                          bName, ComparedText(env, lb, ignoreKeys));
          RenderedOutput(env.shell(DiffCommand(DiffTool(toolOverride), st.aPath, st.bPath), st.files))
  }

  /** `diff`. */
  method Diff(env: Environment, aPath: string, bPath: string, sortKeys: bool,
              ignoreKeys: Option<seq<string>>, toolOverride: Option<string>)
    returns (r: Result<string, Error>)
    ensures r == DiffOutcome(env, aPath, bPath, sortKeys, ignoreKeys, toolOverride)
  {
    var tool := DiffTool(toolOverride);
    var a := Open(env, aPath, sortKeys);
    if a.Err? {
      return Err(a.error);
    }
    var b := Open(env, bPath, sortKeys);
    if b.Err? {
      return Err(b.error);
    }
    var aText, bText;
    if ignoreKeys.None? {
      aText, bText := a.value.xml, b.value.xml;
    } else {
      var aDict := a.value.Contents();
      var bDict := b.value.Contents();
      aDict, bDict := DropIgnoredKeys(aDict, bDict, ignoreKeys.value);
      aText, bText := env.dumps(Dict(aDict), true), env.dumps(Dict(bDict), true);
    }
    if a.value.fileName == [] {
      return Err(CannotWriteTempFile(aPath));
    }
    if b.value.fileName == [] {
      return Err(CannotWriteTempFile(bPath));
    }
    var st := Stage(env.tempDir, a.value.fileName, aText, b.value.fileName, bText);
    var res := env.shell(DiffCommand(tool, st.aPath, st.bPath), st.files);
    r := RenderedOutput(res);
  }

  /** A profile that fails to load is the error of `diff`, `a` first. */
  lemma DiffReportsLoadErrors(env: Environment, aPath: string, bPath: string, sortKeys: bool,
                              ignoreKeys: Option<seq<string>>, toolOverride: Option<string>)
    ensures var d := DiffOutcome(env, aPath, bPath, sortKeys, ignoreKeys, toolOverride);
      var la := ReadProfile(env, env.absPath(aPath), sortKeys);
      var lb := ReadProfile(env, env.absPath(bPath), sortKeys);
      && (la.Err? ==> d == Err(la.error))
      && (la.Ok? && lb.Err? ==> d == Err(lb.error))
      && (la.Ok? && lb.Ok? && d.Err? ==> d.error.CannotWriteTempFile? || d.error == RendererUnavailable)
  {
  }

  /** When both profiles load, the tool is `opendiff` or the override and
      is run over two distinct files holding exactly the two compared
      texts, under the profiles' own base names; when those names differ,
      the files and the command are exactly those of the source's staging. */
  lemma DiffComparesBothProfiles(env: Environment, aPath: string, bPath: string, sortKeys: bool,
                                 ignoreKeys: Option<seq<string>>, toolOverride: Option<string>)
    requires ReadProfile(env, env.absPath(aPath), sortKeys).Ok? && ReadProfile(env, env.absPath(bPath), sortKeys).Ok?
    requires Paths.BaseName(env.absPath(aPath)) != [] && Paths.BaseName(env.absPath(bPath)) != []
    ensures var aName := Paths.BaseName(env.absPath(aPath));
      var bName := Paths.BaseName(env.absPath(bPath));
      var aText := ComparedText(env, ReadProfile(env, env.absPath(aPath), sortKeys).value, ignoreKeys);
      var bText := ComparedText(env, ReadProfile(env, env.absPath(bPath), sortKeys).value, ignoreKeys);
      exists st: Staging ::
        && st.aPath != st.bPath
        && st.files == map[st.aPath := aText, st.bPath := bText]
        && Paths.BaseName(st.aPath) == aName && Paths.BaseName(st.bPath) == bName
        && (aName != bName ==> st == StageAsWritten(env.tempDir, aName, aText, bName, bText))
        && DiffOutcome(env, aPath, bPath, sortKeys, ignoreKeys, toolOverride)
           == RenderedOutput(env.shell(DiffCommand(DiffTool(toolOverride), st.aPath, st.bPath), st.files))
  {
    var aName := Paths.BaseName(env.absPath(aPath));
    var bName := Paths.BaseName(env.absPath(bPath));
    var aText := ComparedText(env, ReadProfile(env, env.absPath(aPath), sortKeys).value, ignoreKeys);
    var bText := ComparedText(env, ReadProfile(env, env.absPath(bPath), sortKeys).value, ignoreKeys);
    var st := Stage(env.tempDir, aName, aText, bName, bText);
  }
}
