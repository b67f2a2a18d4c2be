/** The library half of protool: a parsed provisioning profile, its
    classification, and the operations built on loading profiles
    (listing the installed ones, diffing two, reading one key, decoding). */
module Protool {
  import opened Wrappers
  import opened Plist
  import Text
  import Paths

  /** `ProvisioningType`: the four kinds of profile. */
  datatype ProvisioningType =
    | IosDevelopment
    | AppStoreDistribution
    | AdHocDistribution
    | EnterpriseDistribution

  /** The enum member's `value`. */
  function EnumValue(t: ProvisioningType): (n: int)
    ensures n in {1, 3, 5, 7}
  {
    match t
    case IosDevelopment => 1
    case AppStoreDistribution => 3
    case AdHocDistribution => 5
    case EnterpriseDistribution => 7
  }

  /** `ProvisioningType(n)`: the member with value `n`; any other number
      raises `ValueError`. */
  function FromEnumValue(n: int): (r: Option<ProvisioningType>)
    ensures r.Some? <==> n in {1, 3, 5, 7}
  {
    if n == 1 then Some(IosDevelopment)
    else if n == 3 then Some(AppStoreDistribution)
    else if n == 5 then Some(AdHocDistribution)
    else if n == 7 then Some(EnterpriseDistribution)
    else None
  }

  /** Value lookup inverts `value`, so the four values are distinct. */
  lemma EnumValueRoundTrip(t: ProvisioningType, n: int)
    ensures FromEnumValue(n) == Some(t) <==> EnumValue(t) == n
  {
  }

  /** The exceptions the library raises, one variant per cause. */
  datatype Error =
    | FileNotFound(path: string)       // `_get_xml`: the path does not exist
    | UnwrapFailed(path: string)       // `security cms` exited non-zero
    | MalformedPlist                   // `plistlib.loads` rejected the text
    | NotADictionary                   // the top-level value has no `.get`
    | EntitlementsNotADictionary       // `entitlements.get` on a non-dict
    | IndeterminateProfileType         // "Unable to determine provisioning profile type"
    | CannotWriteTempFile(path: string) // the profile's base name is empty: its temporary path is a directory
    | RendererUnavailable              // the diff command could not be started at all

  /** What the shell reports after running the diff command. */
  datatype RenderResult = Exited(status: int, stdout: string) | LaunchFailed

  /** The world outside the library, as functions: the file system test,
      the `security cms -D -i <path>` unwrapper (its standard output, or
      `None` on a non-zero exit), the plist codec, the temporary directory
      `mkdtemp` hands out, `expanduser`, and the shell that runs the diff
      command with the staged temporary files (path to text) visible. */
  datatype Environment = Environment(
    absPath: string -> string,
    pathExists: string -> bool,
    securityCms: string -> Option<string>,
    loads: string -> Option<Value>,
    dumps: (Value, bool) -> string,
    tempDir: string,
    expandUser: string -> string,
    shell: (string, map<string, string>) -> RenderResult)

  /** plistlib's own promise, for the values it produces: a value `loads`
      read from some text is serialised again, with or without sorted
      keys, into text that reads back as the same value. */
  ghost predicate CodecRoundTrips(env: Environment) {
    forall text, v, sortKeys :: env.loads(text) == Some(v) ==> env.loads(env.dumps(v, sortKeys)) == Some(v)
  }

  /** An environment in which one profile loads: every path exists and
      unwraps to the empty text, which the codec reads as a one-entry
      dictionary holding the text itself under `"t"`, and writes back as
      that text. */
  const SampleEnvironment: Environment := Environment(
    p => p, p => true, p => Some(""),
    text => Some(Dict(map["t" := Str(text)])),
    (v: Value, sortKeys: bool) =>
      if v.Dict? && "t" in v.entries && v.entries["t"].Str? then v.entries["t"].s else "",
    "", p => p, (cmd, files) => LaunchFailed)

  /** The sample codec meets the round trip. */
  lemma SampleRoundTrips()
    ensures CodecRoundTrips(SampleEnvironment)
  {
    var env := SampleEnvironment;
    forall text, v, sortKeys | env.loads(text) == Some(v)
      ensures env.loads(env.dumps(v, sortKeys)) == Some(v)
    {
      assert v == Dict(map["t" := Str(text)]);
      assert env.dumps(v, sortKeys) == text;
    }
  }

  /** A path loads when it exists, unwraps, and its stripped text parses
      as a dictionary. */
  lemma LoadsWhenParsedAsDictionary(env: Environment, path: string)
    requires env.pathExists(path) && env.securityCms(path).Some?
    requires var v := env.loads(Text.Strip(env.securityCms(path).value)); v.Some? && v.value.Dict?
    ensures ReadProfile(env, path, true).Ok?
  {
  }

  /** In the sample environment `"p"` exists and unwraps to the empty text. */
  lemma SampleUnwraps()
    ensures SampleEnvironment.pathExists("p") && SampleEnvironment.securityCms("p") == Some("")
  {
  }

  /** The sample codec reads the stripped empty text as a dictionary. */
  lemma SampleParses()
    ensures SampleEnvironment.loads(Text.Strip("")) == Some(Dict(map["t" := Str("")]))
  {
    assert Text.Strip("") == "";
  }

  /** A profile loads in the sample environment. */
  lemma SampleLoads()
    ensures ReadProfile(SampleEnvironment, "p", true).Ok?
  {
    SampleUnwraps();
    SampleParses();
    LoadsWhenParsedAsDictionary(SampleEnvironment, "p");
  }

  /** The round trip is a consistent assumption, together with a profile
      that loads: the preconditions of the lemmas that take it can all
      hold at once. */
  lemma CodecRoundTripsIsSatisfiable()
    ensures exists env, path :: CodecRoundTrips(env) && ReadProfile(env, path, true).Ok?
  {
    SampleRoundTrips();
    SampleLoads();
  }

  // ----- typed fields ---------------------------------------------------

  /** The typed view of a profile, as `_parse_contents` assigns it. A
      field holds whatever value the plist has under its key (`None` when
      the key is absent), except the two with documented defaults. */
  datatype TypedFields = TypedFields(
    appIdName: Option<Value>,
    applicationIdentifierPrefix: Option<Value>,
    creationDate: Option<Value>,
    platform: Option<Value>,
    entitlements: Value,
    expirationDate: Option<Value>,
    name: Option<Value>,
    teamIdentifier: Option<Value>,
    teamName: Option<Value>,
    timeToLive: Option<Value>,
    uuid: Option<Value>,
    version: Option<Value>,
    provisionedDevices: Option<Value>,
    provisionsAllDevices: Value)

  /** The plist keys `_parse_contents` reads. */
  const KnownKeys: set<string> := {
    "AppIDName", "ApplicationIdentifierPrefix", "CreationDate", "Platform",
    "Entitlements", "ExpirationDate", "Name", "TeamIdentifier", "TeamName",
    "TimeToLive", "UUID", "Version", "ProvisionedDevices", "ProvisionsAllDevices"}

  /** `dict.get(key, default)`. */
  function GetOr(m: map<string, Value>, key: string, default: Value): (r: Value)
    ensures key in m ==> r == m[key]
    ensures key !in m ==> r == default
  {
    if key in m then m[key] else default
  }

  /** The extraction table of `_parse_contents`: every field is the value
      under its key or `None`; `Entitlements` defaults to `{}` and
      `ProvisionsAllDevices` to `False`. A missing key is never an error. */
  function Extract(m: map<string, Value>): (f: TypedFields)
    ensures f.appIdName == Get(m, "AppIDName")
    ensures f.applicationIdentifierPrefix == Get(m, "ApplicationIdentifierPrefix")
    ensures f.creationDate == Get(m, "CreationDate")
    ensures f.platform == Get(m, "Platform")
    ensures f.entitlements == GetOr(m, "Entitlements", Dict(map[]))
    ensures f.expirationDate == Get(m, "ExpirationDate")
    ensures f.name == Get(m, "Name")
    ensures f.teamIdentifier == Get(m, "TeamIdentifier")
    ensures f.teamName == Get(m, "TeamName")
    ensures f.timeToLive == Get(m, "TimeToLive")
    ensures f.uuid == Get(m, "UUID")
    ensures f.version == Get(m, "Version")
    ensures f.provisionedDevices == Get(m, "ProvisionedDevices")
    ensures f.provisionsAllDevices == GetOr(m, "ProvisionsAllDevices", Bool(false))
  {
    TypedFields(
      Get(m, "AppIDName"), Get(m, "ApplicationIdentifierPrefix"),
      Get(m, "CreationDate"), Get(m, "Platform"),
      GetOr(m, "Entitlements", Dict(map[])), Get(m, "ExpirationDate"),
      Get(m, "Name"), Get(m, "TeamIdentifier"), Get(m, "TeamName"),
      Get(m, "TimeToLive"), Get(m, "UUID"), Get(m, "Version"),
      Get(m, "ProvisionedDevices"), GetOr(m, "ProvisionsAllDevices", Bool(false)))
  }

  /** Keys outside the table have no influence on the typed fields. */
  lemma ExtractIgnoresUnknownKeys(m: map<string, Value>, key: string, v: Value)
    requires key !in KnownKeys
    ensures Extract(m[key := v]) == Extract(m)
    ensures Extract(m - {key}) == Extract(m)
  {
  }

  // ----- classification -------------------------------------------------

  /** Whether the entitlements carry a truthy `get-task-allow`. */
  predicate TaskAllowed(entitlements: map<string, Value>) {
    TruthyOpt(Get(entitlements, "get-task-allow"))
  }

  /** `profile_type`: first match wins over all-devices, a truthy
      `get-task-allow` and a truthy device list (an empty list is as good
      as none). Stated here as the decision table it amounts to, one
      outcome per combination; `get-task-allow` without devices is the
      unclassified error, and entitlements that are not a dictionary raise
      once the all-devices test has failed. */
  function Classify(allDevices: Value, entitlements: Value, devices: Option<Value>)
    : (r: Result<ProvisioningType, Error>)
    ensures r == Ok(EnterpriseDistribution) <==> Truthy(allDevices)
    ensures r == Err(EntitlementsNotADictionary) <==> !Truthy(allDevices) && !entitlements.Dict?
    ensures r == Ok(AdHocDistribution) <==>
      !Truthy(allDevices) && entitlements.Dict? && !TaskAllowed(entitlements.entries) && TruthyOpt(devices)
    ensures r == Ok(AppStoreDistribution) <==>
      !Truthy(allDevices) && entitlements.Dict? && !TaskAllowed(entitlements.entries) && !TruthyOpt(devices)
    ensures r == Ok(IosDevelopment) <==>
      !Truthy(allDevices) && entitlements.Dict? && TaskAllowed(entitlements.entries) && TruthyOpt(devices)
    ensures r == Err(IndeterminateProfileType) <==>
      !Truthy(allDevices) && entitlements.Dict? && TaskAllowed(entitlements.entries) && !TruthyOpt(devices)
  {
    if Truthy(allDevices) then Ok(EnterpriseDistribution)
    else if !entitlements.Dict? then Err(EntitlementsNotADictionary)
    else
      var taskAllow := TaskAllowed(entitlements.entries);
      var hasDevices := TruthyOpt(devices);
      if !taskAllow && hasDevices then Ok(AdHocDistribution)
      else if !taskAllow && !hasDevices then Ok(AppStoreDistribution)
      else if taskAllow && hasDevices then Ok(IosDevelopment)
      else Err(IndeterminateProfileType)
  }

  /** Only truthiness matters: two profiles whose inputs agree in
      truthiness get the same classification, whatever the values are. */
  lemma ClassifyDependsOnTruthiness(a1: Value, e1: Value, d1: Option<Value>,
                                    a2: Value, e2: Value, d2: Option<Value>)
    requires Truthy(a1) == Truthy(a2) && TruthyOpt(d1) == TruthyOpt(d2)
    requires e1.Dict? == e2.Dict?
    requires e1.Dict? ==> TaskAllowed(e1.entries) == TaskAllowed(e2.entries)
    ensures Classify(a1, e1, d1) == Classify(a2, e2, d2)
  {
  }

  /** The classification of a freshly parsed `contents` map. */
  function ClassifyContents(m: map<string, Value>): Result<ProvisioningType, Error> {
    var f := Extract(m);
    Classify(f.provisionsAllDevices, f.entitlements, f.provisionedDevices)
  }

  /** A profile with none of the three keys is an App Store profile: the
      defaults are `False`, `{}` and `None`. */
  lemma BareProfileIsAppStore(m: map<string, Value>)
    requires "ProvisionsAllDevices" !in m && "Entitlements" !in m && "ProvisionedDevices" !in m
    ensures ClassifyContents(m) == Ok(AppStoreDistribution)
  {
  }

  // ----- loading ----------------------------------------------------------

  /** The result of `load_from_disk` on a path: the text kept in `xml`
      and the parsed `contents`. */
  datatype Loaded = Loaded(xml: string, contents: map<string, Value>)

  /** What `load_from_disk` computes: unwrap the file (which must exist),
      strip the output, parse it, and with `sortKeys` replace the text by
      a key-sorted serialisation of what was parsed. */
  function ReadProfile(env: Environment, path: string, sortKeys: bool): Result<Loaded, Error> {
    if !env.pathExists(path) then Err(FileNotFound(path))
    else match env.securityCms(path)
      case None => Err(UnwrapFailed(path))
      case Some(out) =>
        var text := Text.Strip(out);
        match env.loads(text)
        case None => Err(MalformedPlist)
        case Some(Dict(m)) => Ok(Loaded(if sortKeys then env.dumps(Dict(m), true) else text, m))
        case Some(_) => Err(NotADictionary)
  }

  /** The invariant between the two raw forms: once loaded, `xml` reads
      back as exactly `contents`, sorted or not. */
  lemma LoadedXmlMatchesContents(env: Environment, path: string, sortKeys: bool)
    requires CodecRoundTrips(env)
    requires ReadProfile(env, path, sortKeys).Ok?
    ensures var l := ReadProfile(env, path, sortKeys).value;
      env.loads(l.xml) == Some(Dict(l.contents))
  {
    var l := ReadProfile(env, path, sortKeys).value;
    var text := Text.Strip(env.securityCms(path).value);
    assert env.loads(text) == Some(Dict(l.contents));
    if sortKeys {
      assert l.xml == env.dumps(Dict(l.contents), true);
      assert env.loads(env.dumps(Dict(l.contents), true)) == Some(Dict(l.contents));
    } else {
      assert l.xml == text;
    }
  }

  /** Sorting keys changes the text only, never what was parsed. */
  lemma SortingKeepsContents(env: Environment, path: string)
    ensures ReadProfile(env, path, true).Ok? <==> ReadProfile(env, path, false).Ok?
    ensures ReadProfile(env, path, true).Ok? ==>
      ReadProfile(env, path, true).value.contents == ReadProfile(env, path, false).value.contents
  {
    var sorted := ReadProfile(env, path, true);
    var unsorted := ReadProfile(env, path, false);
    if !env.pathExists(path) {
      assert sorted == unsorted == Err(FileNotFound(path));
    } else if env.securityCms(path).None? {
      assert sorted == unsorted == Err(UnwrapFailed(path));
    } else {
      var text := Text.Strip(env.securityCms(path).value);
      match env.loads(text) {
        case None =>
          assert sorted == unsorted == Err(MalformedPlist);
        case Some(Dict(m)) =>
          assert sorted.value.contents == m == unsorted.value.contents;
        case Some(_) =>
          assert sorted == unsorted == Err(NotADictionary);
      }
    }
  }

  /** A provisioning profile as loaded from `filePath`. */
  class ProvisioningProfile {
    const filePath: string
    const fileName: string
    var xml: string
    var contents: map<string, Value>

    /** The typed attributes (`app_id_name` … `provisions_all_devices`). */
    var typed: TypedFields

    /** `file_name` is the base name of `file_path`, as `__init__` sets
        them; both are fixed once constructed. */
    ghost predicate Named() {
      fileName == Paths.BaseName(filePath)
    }

    /** The typed fields are those `_parse_contents` derives from `contents`. */
    ghost predicate Parsed()
      reads this
    {
      typed == Extract(contents)
    }

    /** The object before `load_from_disk` has run: path and base name
      set, nothing loaded yet. */
    constructor (env: Environment, path: string)
      ensures filePath == env.absPath(path) && fileName == Paths.BaseName(filePath)
      ensures xml == "" && contents == map[] && Parsed()
    {
      filePath := env.absPath(path);
      fileName := Paths.BaseName(env.absPath(path));
      xml := "";
      contents := map[];
      typed := Extract(map[]);
    }

    /** `_parse_contents`: assign every typed field from `contents`. */
    method ParseContents()
      modifies this
      ensures Parsed()
      ensures xml == old(xml) && contents == old(contents)
    {
      typed := Extract(contents);
    }

    /** `load_from_disk` (with `_get_xml`): on success `xml`, `contents`
      and the typed fields are replaced as `ReadProfile` says. A failure
      before unwrapping changes nothing; a parse failure has already
      replaced `xml`, as the source's order of assignments does. */
    method LoadFromDisk(env: Environment, sortKeys: bool) returns (err: Option<Error>)
      modifies this
      ensures var r := ReadProfile(env, filePath, sortKeys);
        && (err.None? <==> r.Ok?)
        && (r.Err? ==> err == Some(r.error))
        && (r.Ok? ==> xml == r.value.xml && contents == r.value.contents && Parsed())
      ensures err.Some? ==> contents == old(contents) && typed == old(typed)
      ensures err.Some? && (err.value.FileNotFound? || err.value.UnwrapFailed?) ==> xml == old(xml)
    {
      if !env.pathExists(filePath) {
        return Some(FileNotFound(filePath));
      }
      var out := env.securityCms(filePath);
      if out.None? {
        return Some(UnwrapFailed(filePath));
      }
      xml := Text.Strip(out.value);
      var parsed := env.loads(xml);
      if parsed.None? {
        return Some(MalformedPlist);
      }
      if !parsed.value.Dict? {
        return Some(NotADictionary);
      }
      contents := parsed.value.entries;
      if sortKeys {
        xml := env.dumps(Dict(contents), true);
      }
      ParseContents();
      err := None;
    }

    /** `contents()`: a copy of the parsed map. Maps are values here, so
      nothing a caller does to the copy reaches the profile. */
    method Contents() returns (c: map<string, Value>)
      ensures c == contents
    {
      c := contents;
    }

    /** `profile_type`, on the fields as they stand. */
    function ProfileType(): Result<ProvisioningType, Error>
      reads this
    {
      Classify(typed.provisionsAllDevices, typed.entitlements, typed.provisionedDevices)
    }
  }

  /** `ProvisioningProfile(path, sort_keys=...)`: construct and load; the
      caller only ever sees a fully loaded profile. */
  method Open(env: Environment, path: string, sortKeys: bool)
    returns (r: Result<ProvisioningProfile, Error>)
    ensures var l := ReadProfile(env, env.absPath(path), sortKeys);
      && (r.Ok? <==> l.Ok?)
      && (r.Err? ==> r.error == l.error)
      && (r.Ok? ==>
            && fresh(r.value) && r.value.filePath == env.absPath(path)
            && r.value.fileName == Paths.BaseName(env.absPath(path))
            && r.value.xml == l.value.xml && r.value.contents == l.value.contents
            && r.value.Named() && r.value.Parsed())
  {
    var p := new ProvisioningProfile(env, path);
    var err := p.LoadFromDisk(env, sortKeys);
    if err.Some? {
      return Err(err.value);
    }
    return Ok(p);
  }

  /** Once loaded, the profile's type is that of its parsed contents. */
  lemma ProfileTypeOfLoaded(p: ProvisioningProfile)
    requires p.Parsed()
    ensures p.ProfileType() == ClassifyContents(p.contents)
  {
  }

  // ----- value_for_key and decode -----------------------------------------

  /** `value_for_key`: load the profile (keys sorted) and look the key up
      in a copy of its contents; a missing key gives `None`. */
  method ValueForKey(env: Environment, path: string, key: string)
    returns (r: Result<Option<Value>, Error>)
    ensures var l := ReadProfile(env, env.absPath(path), true);
      && (r.Ok? <==> l.Ok?)
      && (r.Err? ==> r.error == l.error)
      && (r.Ok? ==> (r.value.Some? <==> key in l.value.contents))
      && (r.Ok? && r.value.Some? ==> r.value.value == l.value.contents[key])
  {
    var p := Open(env, path, true);
    if p.Err? {
      return Err(p.error);
    }
    var c := p.value.Contents();
    if key in c {
      r := Ok(Some(c[key]));
    } else {
      r := Ok(None);
    }
  }

  /** What `decode` hands back: the text, or the parsed map. */
  datatype Decoded = XmlText(text: string) | ContentsMap(entries: map<string, Value>)

  /** `decode`: load the profile (keys sorted) and return its `xml`, or a
      copy of its contents when `xml` is false. */
  method Decode(env: Environment, path: string, asXml: bool) returns (r: Result<Decoded, Error>)
    ensures var l := ReadProfile(env, env.absPath(path), true);
      && (r.Ok? <==> l.Ok?)
      && (r.Err? ==> r.error == l.error)
      && (r.Ok? ==> r.value == if asXml then XmlText(l.value.xml) else ContentsMap(l.value.contents))
  {
    var p := Open(env, path, true);
    if p.Err? {
      return Err(p.error);
    }
    if asXml {
      r := Ok(XmlText(p.value.xml));
    } else {
      var c := p.value.Contents();
      r := Ok(ContentsMap(c));
    }
  }

  // ----- profiles -----------------------------------------------------------

  /** The extension `profiles` looks for. */
  const ProfileExtension: string := ".mobileprovision"

  /** The directory `profiles` scans: the given one, user-expanded, when
      it is truthy; otherwise `~/Library/MobileDevice/Provisioning Profiles`,
      joined component by component. */
  function ProfilesDirectory(env: Environment, profilesDir: Option<string>): string {
    if profilesDir.Some? && profilesDir.value != "" then env.expandUser(profilesDir.value)
    else Paths.Join(Paths.Join(Paths.Join(env.expandUser("~"), "Library"), "MobileDevice"), "Provisioning Profiles")
  }

  /** The test in `profiles`: the extension of the joined path is exactly
      `.mobileprovision`. */
  predicate IsProfileEntry(dir: string, entry: string) {
    Paths.Ext(Paths.Join(dir, entry)) == ProfileExtension
  }

  /** An entry is kept exactly when its name ends in `.mobileprovision`
      (case-sensitively) after something that is not all dots, whatever
      the directory. */
  lemma ProfileEntryByName(dir: string, e: string)
    requires Paths.IsEntryName(e)
    ensures IsProfileEntry(dir, e) <==>
      |e| >= 16 && e[|e| - 16..] == ".mobileprovision" && Paths.HasNonDot(e[..|e| - 16])
  {
    assert |ProfileExtension| == 16;
    assert Paths.IsExtension(ProfileExtension) by {
      forall k | 1 <= k < 16 ensures ProfileExtension[k] != '.' && ProfileExtension[k] != '/' {
      }
    }
    Paths.ExtOfJoin(dir, e);
    Paths.EntryExtension(e, ProfileExtension);
  }

  /** The elements of `xs` that satisfy `keep`, in their order. */
  function Filter(keep: string -> bool, xs: seq<string>): (r: seq<string>)
    ensures |r| <= |xs|
  {
    if xs == [] then []
    else Filter(keep, xs[..|xs| - 1]) + (if keep(xs[|xs| - 1]) then [xs[|xs| - 1]] else [])
  }

  /** Exactly the elements satisfying `keep` are kept, none is dropped. */
  lemma {:induction false} FilterMembership(keep: string -> bool, xs: seq<string>, x: string)
    ensures x in Filter(keep, xs) <==> x in xs && keep(x)
  {
    if xs != [] {
      var init := xs[..|xs| - 1];
      FilterMembership(keep, init, x);
      assert xs == init + [xs[|xs| - 1]];
    }
  }

  /** Filtering a concatenation is concatenating the filtered parts: the
      kept elements stay in their original order. */
  lemma {:induction false} FilterConcat(keep: string -> bool, a: seq<string>, b: seq<string>)
    ensures Filter(keep, a + b) == Filter(keep, a) + Filter(keep, b)
    decreases |b|
  {
    if b == [] {
      assert a + b == a;
    } else {
      var init := b[..|b| - 1];
      assert (a + b)[..|a + b| - 1] == a + init;
      FilterConcat(keep, a, init);
    }
  }

  /** One more element is kept exactly when it satisfies `keep`. */
  lemma FilterStep(keep: string -> bool, xs: seq<string>, i: nat)
    requires i < |xs|
    ensures Filter(keep, xs[..i + 1]) == Filter(keep, xs[..i]) + (if keep(xs[i]) then [xs[i]] else [])
  {
    assert xs[..i + 1][..i] == xs[..i];
  }

  /** The test `profiles` applies to each entry of `dir`. */
  function ProfileTest(dir: string): string -> bool {
    e => IsProfileEntry(dir, e)
  }

  /** The entries of `listing` that `profiles` loads, in listing order. */
  function ProfileEntries(dir: string, listing: seq<string>): seq<string> {
    Filter(ProfileTest(dir), listing)
  }

  /** `p` is the profile `ProvisioningProfile(path)` yields. */
  ghost predicate LoadedFrom(env: Environment, p: ProvisioningProfile, path: string)
    reads p
  {
    && p.filePath == env.absPath(path) && p.Named() && p.Parsed()
    && ReadProfile(env, env.absPath(path), true) == Ok(Loaded(p.xml, p.contents))
  }

  /** The objects of a sequence of profiles. */
  function Objects(ps: seq<ProvisioningProfile>): set<object> {
    set j | 0 <= j < |ps| :: ps[j]
  }

  /** What `ProvisioningProfile(os.path.join(dir, entry))` loads. */
  function LoadEntry(env: Environment, dir: string, entry: string): Result<Loaded, Error> {
    ReadProfile(env, env.absPath(Paths.Join(dir, entry)), true)
  }

  /** `r` is what loading the entries `kept` of `dir` in order gives: every
      one loaded exactly as `ProvisioningProfile(path)` loads it, or, when
      some entry does not load, the error of the first that does not. */
  ghost predicate LoadsEntries(env: Environment, dir: string, kept: seq<string>,
                               r: Result<seq<ProvisioningProfile>, Error>)
    reads if r.Ok? then Objects(r.value) else {}
  {
    && (r.Ok? <==> forall i :: 0 <= i < |kept| ==> LoadEntry(env, dir, kept[i]).Ok?)
    && (r.Err? ==> exists i :: 0 <= i < |kept| && LoadEntry(env, dir, kept[i]) == Err(r.error)
                             && forall j :: 0 <= j < i ==> LoadEntry(env, dir, kept[j]).Ok?)
    && (r.Ok? ==>
          && |r.value| == |kept|
          && forall i :: 0 <= i < |kept| ==> LoadedFrom(env, r.value[i], Paths.Join(dir, kept[i])))
  }

  /** `profiles`: load, in listing order, every entry of the directory
      listing whose extension is `.mobileprovision`, with sorted keys. The
      first such entry that fails to load makes the whole call fail with
      its error. */
  method Profiles(env: Environment, profilesDir: Option<string>, listing: seq<string>)
    returns (r: Result<seq<ProvisioningProfile>, Error>)
    ensures var dir := ProfilesDirectory(env, profilesDir);
      LoadsEntries(env, dir, ProfileEntries(dir, listing), r)
  {
    var dir := ProfilesDirectory(env, profilesDir);
    r := LoadEntries(env, dir, ProfileTest(dir), listing);
  }

  /** The loop of `profiles`, over the entries of `dir` that pass `keep`
      (for `profiles`, `ProfileTest(dir)`: the extension check). */
  method LoadEntries(env: Environment, dir: string, keep: string -> bool, listing: seq<string>)
    returns (r: Result<seq<ProvisioningProfile>, Error>)
    ensures LoadsEntries(env, dir, Filter(keep, listing), r)
  {
    var all: seq<ProvisioningProfile> := [];
    var i := 0;
    while i < |listing|
      invariant 0 <= i <= |listing|
      invariant LoadsEntries(env, dir, Filter(keep, listing[..i]), Ok(all))
    {
      var entry := listing[i];
      FilterStep(keep, listing, i);
      if keep(entry) {
        var p := Open(env, Paths.Join(dir, entry), true);
        if p.Err? {
          LoadFailureIsReported(env, dir, keep, listing, i, p.error);
          return Err(p.error);
        }
        LoadedOneMore(env, dir, Filter(keep, listing[..i]), all, entry, p.value);
        all := all + [p.value];
      }
      i := i + 1;
    }
    assert listing[..i] == listing;
    r := Ok(all);
  }

  /** Loading one more entry extends what was loaded. */
  lemma LoadedOneMore(env: Environment, dir: string, kept: seq<string>,
                      all: seq<ProvisioningProfile>, entry: string, p: ProvisioningProfile)
    requires LoadsEntries(env, dir, kept, Ok(all))
    requires LoadedFrom(env, p, Paths.Join(dir, entry))
    ensures LoadsEntries(env, dir, kept + [entry], Ok(all + [p]))
  {
    var kept' := kept + [entry];
    var all' := all + [p];
    forall i | 0 <= i < |kept'|
      ensures LoadedFrom(env, all'[i], Paths.Join(dir, kept'[i]))
      ensures LoadEntry(env, dir, kept'[i]).Ok?
    {
      if i < |kept| {
        assert all'[i] == all[i] && kept'[i] == kept[i];
      }
    }
  }

  /** When entry `i` is kept and fails to load after every kept entry
      before it has loaded, it is the first kept entry that fails. */
  lemma LoadFailureIsReported(env: Environment, dir: string, keep: string -> bool,
                              listing: seq<string>, i: nat, e: Error)
    requires i < |listing| && keep(listing[i])
    requires LoadEntry(env, dir, listing[i]) == Err(e)
    requires var before := Filter(keep, listing[..i]);
      forall j :: 0 <= j < |before| ==> LoadEntry(env, dir, before[j]).Ok?
    ensures var kept := Filter(keep, listing);
      exists k :: 0 <= k < |kept| && LoadEntry(env, dir, kept[k]) == Err(e)
                  && forall j :: 0 <= j < k ==> LoadEntry(env, dir, kept[j]).Ok?
  {
    var before := Filter(keep, listing[..i]);
    var kept := Filter(keep, listing);
    KeptSplit(keep, listing, i);
    var k := |before|;
    forall j | 0 <= j < k ensures LoadEntry(env, dir, kept[j]).Ok? {
      assert kept[j] == before[j];
    }
    assert kept[k] == listing[i];
  }

  /** The kept elements split at a kept element `i`: those kept before it,
      then it, then those kept after it. */
  lemma KeptSplit(keep: string -> bool, listing: seq<string>, i: nat)
    requires i < |listing| && keep(listing[i])
    ensures Filter(keep, listing)
            == Filter(keep, listing[..i]) + [listing[i]] + Filter(keep, listing[i + 1..])
  {
    FilterStep(keep, listing, i);
    FilterConcat(keep, listing[..i + 1], listing[i + 1..]);
    assert listing[..i + 1] + listing[i + 1..] == listing;
  }
}
