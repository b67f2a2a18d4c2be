# protool, modelled in Dafny

protool reads Apple provisioning profiles (`.mobileprovision` files). It
unwraps a profile with `security cms`, parses the plist inside, and exposes:

- the profile's typed fields;
- its type: development, App Store, ad hoc or enterprise;
- the list of installed profiles;
- a diff of two profiles, optionally ignoring some keys;
- the value under one key, and the decoded XML.

The command line offers `diff`, `gitdiff`, `read` and `decode`.

This project models that core and proves properties of it:

- `wrappers.dfy`: `Option` and `Result`.
- `plist.dfy`: plist values, Python truthiness, and which values `json.dumps` accepts.
- `text.dfy`:
  - `str.strip`, in module `Text`;
  - the POSIX `os.path` functions the library relies on (`join`, `basename`, `splitext`), in module `Paths`.
- `protool.dfy`: the `ProvisioningType` enum, the `ProvisioningProfile` class, classification, loading, `profiles`, `value_for_key` and `decode`.
- `diff.dfy`: `diff`, covering the ignored keys, staging of the two texts, the command line of the diff tool, and how its result is read.
- `command_line.dfy`: the handlers and the dispatch of `command_line.py`.

Everything outside the process is a function-typed field of the `Environment` datatype. Each is a parameter, never something the model runs:

- `os.path.abspath` and `os.path.exists`;
- the `security cms -D -i` call, which returns its output or `None` on a non-zero exit;
- `plistlib.loads` and `plistlib.dumps`;
- the `mkdtemp` directory and `os.path.expanduser`;
- the shell that runs the diff command, which sees the staged files.

`os.listdir` is a parameter of `Profiles`. The printing of integers, floats and dates, `json.dumps` of a value it accepts, and the help text are fields of `CommandLine.Console`.

The profile is a class. It has the source's `file_path`, `file_name`, `xml` and `_contents`. The fourteen typed attributes are one `TypedFields` record, and `Parsed()` says that record is what `_parse_contents` derives from the contents.

`LoadFromDisk` is proved against `ReadProfile`, a function of the environment and the path. The callers are proved against it too:

- `Open`, the constructor followed by the load;
- `Profiles`;
- `ValueForKey` and `Decode`;
- `Diff` and the command handlers.

The model follows the code in these behaviours, which a reader might not expect:

- `read` of a missing key prints `null` and exits 0, because `value_for_key` returns `None` and `json.dumps(None)` is `"null"`.
- With `--ignore`, the two texts are re-serialised by `plistlib.dumps` with its default `sort_keys=True`, whatever `-k` says.
- The classification tests the device list and `ProvisionsAllDevices` for truthiness, not presence. An empty `ProvisionedDevices` list counts as no devices.
- A diff tool that cannot be found is not an error. Under `shell=True` the shell exits with status 127, and `diff` returns that output as `CalledProcessError.output`. Only a shell that cannot start raises.
- `diff` has no `try`/`finally` around `shutil.rmtree`, so a failure does not clean up the temporary directory.
- The command line of this version has no `search` command. `search` is not among the parser's sub-commands, so `parse_args` rejects `protool search …` as an invalid choice and exits 2 before any handler runs. The final "Unrecognized command" branch of the dispatch (protool/command_line.py:252-253) cannot be reached from the parser; `HandleArguments` still models it, for a namespace with any other sub-command name.
- The entitlements are read with `.get`. A value there that is not a dictionary raises (`EntitlementsNotADictionary`), but only after the all-devices test has failed.

## Model

| member | source | states |
|---|---|---|
| Protool.EnumValue | protool/__init__.py:19-25 | every member's value is one of 1, 3, 5, 7 |
| Protool.FromEnumValue | protool/__init__.py:19-25 | `ProvisioningType(n)` exists exactly for n in {1, 3, 5, 7} |
| Protool.EnumValueRoundTrip | protool/__init__.py:19-25 | lookup by value inverts `value`, both ways, so the values are distinct |
| Plist.Get | protool/__init__.py:105-119 | `dict.get`: `Some` exactly when the key is present, holding its value |
| Plist.Truthy | protool/__init__.py:55-65 | definition: Python's `bool()` of a plist value (empty string, zero, `False`, empty bytes, list or dict are false; a date is true); `ClassifyDependsOnTruthiness` uses it |
| Protool.GetOr | protool/__init__.py:111 | `dict.get(key, default)`: the value when present, the default otherwise |
| Protool.Extract | protool/__init__.py:103-120 | every typed field is the value under its key or `None`; `Entitlements` defaults to `{}`, `ProvisionsAllDevices` to `False` |
| Protool.ExtractIgnoresUnknownKeys | protool/__init__.py:103-120 | adding or removing a key outside the extraction table leaves every typed field unchanged |
| Protool.TaskAllowed | protool/__init__.py:58-64 | definition: the truthiness of `entitlements.get("get-task-allow")`, `None` being false; `Classify`'s table is stated with it |
| Protool.Classify | protool/__init__.py:52-67 | the first-match rules as a disjoint decision table, each outcome iff its truthiness combination, including both raising cases |
| Protool.ClassifyDependsOnTruthiness | protool/__init__.py:52-67 | inputs that agree in truthiness classify alike |
| Protool.ClassifyContents | protool/__init__.py:52-67 | definition: `profile_type` of the fields `_parse_contents` derives from a contents map; `BareProfileIsAppStore` and `ProfileTypeOfLoaded` state its properties |
| Protool.BareProfileIsAppStore | protool/__init__.py:52-67 | with none of the three keys, the defaults classify as App Store |
| Protool.ProfileTypeOfLoaded | protool/__init__.py:52-67 | on a parsed profile, the type is the classification of its contents |
| Protool.ProvisioningProfile.ProfileType | protool/__init__.py:52-67 | definition: the `profile_type` property, the classification of the typed fields; `ProfileTypeOfLoaded` ties it to the contents |
| Text.IsSpace | protool/__init__.py:130 | definition: Python's `str.isspace` set of whitespace characters, which `strip()` removes; `StripStart` and `StripEnd` are stated with it |
| Text.Strip | protool/__init__.py:128-130 | the result is no longer than the input; as a definition, `.strip()` (also of the diff output at line 214); `StripTrimsBothEnds`, `StripKeepsMiddle` and `StripIdempotent` state its properties |
| Text.StripStart | protool/__init__.py:128-130 | the result is a suffix; every dropped character is whitespace and the result does not start with whitespace |
| Text.StripEnd | protool/__init__.py:128-130 | the result is a prefix; every dropped character is whitespace and the result does not end with whitespace |
| Text.StripTrimsBothEnds | protool/__init__.py:128-130 | neither end of `strip()`'s result is whitespace |
| Text.StripKeepsMiddle | protool/__init__.py:128-130 | `strip()` keeps a contiguous run of the input and drops only whitespace before and after it |
| Text.StripIdempotent | protool/__init__.py:128-130 | stripping twice is stripping once |
| Protool.ReadProfile | protool/__init__.py:89-130 | definition: what loading a path gives, in the source's order of failures (missing file, `security cms` failure, unparsable text, non-dictionary top level), with the stripped text or its sorted re-serialisation; `LoadFromDisk`, `SortingKeepsContents` and `LoadedXmlMatchesContents` state its properties |
| Protool.LoadsWhenParsedAsDictionary | protool/__init__.py:89-97 | a path loads when it exists, `security cms` unwraps it, and the stripped text parses as a dictionary |
| Protool.CodecRoundTripsIsSatisfiable | protool/__init__.py:92-95 | some environment meets plistlib's round trip and loads a profile, so the preconditions of `LoadedXmlMatchesContents` and `DecodePrintsContents` can hold together |
| Protool.LoadedXmlMatchesContents | protool/__init__.py:89-97 | given plistlib's round trip for the values it reads, the stored `xml` parses back to `contents`, sorted or not |
| Protool.SortingKeepsContents | protool/__init__.py:94-95 | `sort_keys` changes the text only: success and the parsed contents are the same either way |
| Protool.ProvisioningProfile.constructor | protool/__init__.py:84-86 | `file_path` is the absolute path and `file_name` its base name |
| Protool.ProvisioningProfile.ParseContents | protool/__init__.py:103-120 | the typed fields become `Extract(contents)`; the text and the map are unchanged |
| Protool.ProvisioningProfile.LoadFromDisk | protool/__init__.py:89-97 | success iff `ReadProfile` succeeds, with its text and map and the typed fields re-derived; an error is `ReadProfile`'s; a failure before unwrapping changes nothing, and a parse failure leaves only `xml` replaced |
| Protool.ProvisioningProfile.Contents | protool/__init__.py:99-101 | the copy equals the parsed map |
| Protool.Open | protool/__init__.py:84-87 | a fresh, fully loaded profile exactly when `ReadProfile` of the absolute path succeeds, otherwise its error |
| Paths.LastIndex | protool/__init__.py:149 | `rfind`: -1 iff the character is absent, otherwise an occurrence with none after it |
| Paths.Join | protool/__init__.py:148 | definition: POSIX `os.path.join` of two components (an absolute second part replaces the first; a separator is added only when missing); `ExtOfJoin` and `BaseNameOfJoin` state what the model relies on |
| Paths.BaseName | protool/__init__.py:86 | the result is the suffix of the path that starts right after its last separator (the whole path when there is none), and holds no separator |
| Paths.BaseNameOfJoin | protool/__init__.py:199-200 | the base name of `os.path.join(dir, name)` is `name`, for any directory and entry name |
| Paths.SplitExt | protool/__init__.py:149 | definition: POSIX `os.path.splitext`, the extension starting at the last dot of the last component unless only dots precede it there; `SplitExtParts` and `EntryExtension` state its properties |
| Paths.SplitExtParts | protool/__init__.py:149 | root and extension put together are the path; a non-empty extension starts with a dot |
| Paths.Ext | protool/__init__.py:149 | definition: the `ext` half of `os.path.splitext`; `ExtOfJoin` and `EntryExtension` state its properties |
| Paths.ExtOfJoin | protool/__init__.py:148-149 | joining a directory to an entry name does not change its extension |
| Paths.EntryExtension | protool/__init__.py:149-150 | an entry name has a given extension iff it ends in it after something that is not only dots |
| Protool.ProfilesDirectory | protool/__init__.py:138-144 | definition: the expanded `profiles_dir` when it is given and non-empty, otherwise `~/Library/MobileDevice/Provisioning Profiles`; `Profiles` loads from it |
| Protool.IsProfileEntry | protool/__init__.py:148-150 | definition: the extension of the joined path is exactly `.mobileprovision`; `ProfileEntryByName` restates it on the entry name alone |
| Protool.ProfileEntryByName | protool/__init__.py:147-150 | an entry is kept iff its name ends in `.mobileprovision` after something not all dots, whatever the directory |
| Protool.Filter | protool/__init__.py:147-152 | the kept entries, in listing order, are never more than the listing; `FilterMembership`, `FilterConcat` and `KeptSplit` state what is kept and in what order |
| Protool.FilterMembership | protool/__init__.py:147-152 | exactly the entries passing the test are kept |
| Protool.FilterConcat | protool/__init__.py:147-152 | filtering keeps the listing's order |
| Protool.KeptSplit | protool/__init__.py:147-152 | the kept entries, in listing order, are those kept before a kept entry, then it, then those kept after it |
| Protool.LoadEntry | protool/__init__.py:148-151 | definition: what `ProvisioningProfile(os.path.join(dir, entry))` loads, with sorted keys |
| Protool.LoadsEntries | protool/__init__.py:146-154 | definition of `profiles`' contract: success iff every kept entry loads, then one profile per kept entry, in order, each with its path, base name, text and contents; otherwise the error of the first kept entry that fails |
| Protool.Profiles | protool/__init__.py:136-154 | in the given directory or the default one: every kept entry loaded in listing order, each profile with its absolute path, base name, text and parsed fields, or the error of the first kept entry that does not load |
| Protool.LoadEntries | protool/__init__.py:146-154 | the loop: success iff every kept entry loads, each result loaded from its entry's path with that path's base name as `file_name`, in order; an error is that of the first kept entry that fails, all before it having loaded |
| Protool.LoadedOneMore | protool/__init__.py:150-152 | appending one loaded entry keeps the loop invariant |
| Protool.LoadFailureIsReported | protool/__init__.py:150-151 | a kept entry that fails after every earlier kept entry loaded is the first failing kept entry, as the contract of `Profiles` requires |
| Protool.ValueForKey | protool/__init__.py:226-235 | load errors propagate; a value exactly when the key is present, and then the stored one; `None` for a missing key |
| Protool.Decode | protool/__init__.py:238-246 | load errors propagate; otherwise the sorted-key text, or the contents when `xml` is false |
| ProfileDiff.DiffTool | protool/__init__.py:169-172 | `opendiff` unless an override is given, then the override verbatim |
| ProfileDiff.WithoutKeys | protool/__init__.py:184-192 | definition: the map after `del` of each ignored key in turn, missing keys skipped; `WithoutKeysRemovesExactly` characterises it |
| ProfileDiff.ComparedText | protool/__init__.py:177-195 | definition: the stored `xml` without `--ignore`, otherwise plistlib's sorted dump of the contents without the ignored keys; the two `Ignoring…` lemmas state its properties |
| ProfileDiff.WithoutKeysRemovesExactly | protool/__init__.py:181-191 | after the deletions a key remains iff it was present and not ignored, with its value unchanged |
| ProfileDiff.IgnoredKeyOrderIsIrrelevant | protool/__init__.py:181-191 | the order and repetition of ignored keys do not matter |
| ProfileDiff.IgnoredKeysEqualize | protool/__init__.py:177-194 | profiles that differ only under ignored keys compare equal |
| ProfileDiff.DropIgnoredKeys | protool/__init__.py:181-191 | the loop deletes each ignored key from both copies, skipping missing ones |
| ProfileDiff.IgnoringNoKeysIsSortedXml | protool/__init__.py:177-194 | with sorted keys, ignoring an empty list compares the same text as ignoring none |
| ProfileDiff.IgnoringKeysOverridesSortOrder | protool/__init__.py:193-194 | once keys are ignored, `sort_keys` has no effect on the compared text |
| ProfileDiff.StageAsWritten | protool/__init__.py:199-206 | definition: both texts at `temp_dir/<base name>`, `b` written second; `SameNameClobbers` shows the equal-name case |
| ProfileDiff.SameNameClobbers | protool/__init__.py:199-206 | as written, equal base names share one temporary path, which holds `b`'s text, so the tool compares `b` with itself |
| ProfileDiff.Stage | protool/__init__.py:199-206 | corrected staging: exactly the source's when the two base names differ; always two distinct paths holding exactly the two texts, under the profiles' own base names |
| ProfileDiff.DiffCommand | protool/__init__.py:209 | the command is the tool verbatim, a space, then each path in double quotes, the two separated by a space |
| ProfileDiff.RenderedOutput | protool/__init__.py:211-218 | stripped output on exit 0, raw output on a non-zero exit, an error only when the shell cannot start |
| ProfileDiff.DiffOutcome | protool/__init__.py:157-223 | definition, with the corrected staging: `a` loaded, then `b`, the compared texts staged and the tool's result rendered; `DiffReportsLoadErrors` and `DiffComparesBothProfiles` state its properties |
| ProfileDiff.Diff | protool/__init__.py:157-223 | the method computes `DiffOutcome` (corrected staging): `a` loaded, then `b`, the texts compared, staged and rendered |
| ProfileDiff.DiffReportsLoadErrors | protool/__init__.py:174-175 | `a`'s load error first, then `b`'s; any other error comes from staging or launching the tool |
| ProfileDiff.DiffComparesBothProfiles | protool/__init__.py:177-218 | when both load, the tool runs over two distinct files holding exactly the two compared texts; with different base names these are the source's own files and command, with equal ones the corrected staging's |
| CommandLine.DiffReport | protool/command_line.py:28-42 | exit 0 with the diff printed iff `diff` succeeded, else exit 1 with a diagnostic |
| CommandLine.DiffCommandOutput | protool/command_line.py:21-42 | the exit status is 0 or 1 |
| CommandLine.WrongArityLoadsNothing | protool/command_line.py:24-26 | anything but two profiles exits 1 without loading anything |
| CommandLine.DiffOfTwoProfiles | protool/command_line.py:28-42 | with two profiles, `diff` of the first against the second with `sort_keys = not keep_original_order`; exit 0 exactly when it succeeds, printing its result |
| CommandLine.HandleDiff | protool/command_line.py:21-42 | the handler computes `DiffCommandOutput` (corrected staging under equal base names) |
| CommandLine.GitDiffAsWrittenOutput | protool/command_line.py:45-62 | definition: `_handle_git_diff` as written, arguments evaluated left to right, so a short `git_args` fails on the index and any other namespace without `keep_original_order` on the attribute |
| CommandLine.GitDiffAsWrittenAlwaysFails | protool/command_line.py:45-62 | as written, every namespace the `gitdiff` parser produces exits 1 on the missing `keep_original_order` |
| CommandLine.HandleGitDiffAsWritten | protool/command_line.py:45-62 | the handler as written computes `GitDiffAsWrittenOutput` |
| CommandLine.GitDiffOutput | protool/command_line.py:45-62 | the exit status is 0 or 1 |
| CommandLine.GitDiffComparesOldAndNew | protool/command_line.py:50-56 | corrected: a parser namespace diffs `git_args[1]` against `git_args[4]` with sorted keys |
| CommandLine.HandleGitDiff | protool/command_line.py:45-62 | the corrected handler computes `GitDiffOutput` |
| CommandLine.ReadOutput | protool/command_line.py:74-91 | definition: the printed line by the value's type (string, integer or float as itself, date in ISO form, anything else as JSON, `null` for a missing key) or a diagnostic; `ReadSucceedsIff` and `ReadOfNestedBytesFails` state its properties |
| CommandLine.ReadSucceedsIff | protool/command_line.py:65-91 | exit 0 iff the profile loads and the value is missing, a date or JSON-encodable; one line printed on success, one diagnostic otherwise |
| Plist.JsonSafe | protool/command_line.py:82-91 | definition: `json.dumps` accepts the value, i.e. it has no bytes or date anywhere; `NestedUnsafeIsUnsafe` shows the depth does not matter |
| Plist.NestedUnsafeIsUnsafe | protool/command_line.py:82-91 | bytes or a date anywhere inside a value make it unencodable as JSON |
| CommandLine.ReadOfNestedBytesFails | protool/command_line.py:74-91 | a container holding bytes or a date at any depth makes `read` exit 1 |
| CommandLine.Lookup | protool/__init__.py:226-235 | definition: `value_for_key` as a value, the load error or `dict.get` on the sorted-key contents; `ValueForKey` is proved to compute it |
| CommandLine.HandleRead | protool/command_line.py:65-91 | the handler computes `ReadOutput` of `value_for_key`'s result |
| CommandLine.DecodeOutput | protool/command_line.py:94-102 | definition: the sorted-key XML on exit 0, or exit 1 with `Could not decode`; `DecodePrintsContents` states its properties |
| CommandLine.DecodePrintsContents | protool/command_line.py:94-102 | exit 0 iff the profile loads; the single printed text parses back to its contents |
| CommandLine.HandleDecode | protool/command_line.py:94-102 | the handler computes `DecodeOutput` |
| CommandLine.HandleArguments | protool/command_line.py:234-253 | no subcommand prints help and exits 1; each known one runs its handler (`gitdiff` the corrected one, `diff` with the corrected staging under equal base names); anything else prints "Unrecognized command" and exits 1 |

## Left out

- `developer_certificates` is not modelled. It decodes certificates with pyOpenSSL, a foreign library.
- The plist codec is not modelled; `plistlib.loads`/`dumps` are environment functions. `CodecRoundTrips` assumes that a value `loads` produced is written by `dumps` into text that reads back as the same value, and the lemmas that need this take it as a precondition. That is stronger than plistlib in three ways, none modelled: `dumps` is total in the model; `dumps` raises `OverflowError` on integers outside [-2^63, 2^64); and its writer turns `"\r"` in a string into `"\n"` (a string read as `"\r"` from `&#13;` comes back as `"\n"`) and raises `ValueError` on strings holding other control characters. On such profiles the source's sorted-key load and `diff --ignore` raise or change the text, while the model assumes the round trip.
- The plist `UID` type and the exact value of floats are not modelled. `Real` is a mathematical real, and its printing is a `Console` function.
- The `argparse` configuration is not modelled; `Namespace` is the parsed result. Usage errors, which exit with status 2 inside `parse_args`, are left out.
- `print` formatting is left out: handlers return the printed lines and diagnostics as values. The text of an exception message is represented by its `Error` variant.
- `mkdtemp`, the writing of the temporary files and `shutil.rmtree` are not modelled as I/O. The temporary directory is a parameter, and the staged files are handed to the shell as a map.
- `copy.deepcopy` in `contents()` needs no model: Dafny maps are values, so a caller cannot alias the stored map.
- ProfileDiff.Diff: stages the two texts with the corrected `Stage` of the Findings table. With different base names this is exactly the source's staging and command; with equal base names the model puts the files in sub-directories `a` and `b` of the temporary directory, where the source overwrites `a`'s file with `b`'s text. `DiffOutcome`, `DiffComparesBothProfiles`, `DiffCommandOutput`, `HandleDiff`, `GitDiffOutput`, `HandleGitDiff` and `HandleArguments` inherit this; `SameNameClobbers` states the source's behaviour.
- Protool.Profiles: does not state that the returned profiles are fresh objects. The proof of that frame fact over the whole loop is too costly here; `Open`, which creates each profile, does state freshness.
- A plist whose top level is not a dictionary is a load error (`NotADictionary`) in the model. The source would assign such a value to `_contents` and fail in `_parse_contents`'s `.get`, which still fails the load.
- A profile path with an empty base name gives the model's `CannotWriteTempFile` error in `diff`. The source would then open the temporary directory itself for writing, which raises.

## Findings

| source | as written | input that shows it | evidently intended | confidence | as-written member | corrected member |
|---|---|---|---|---|---|---|
| protool/command_line.py:45-62 | `gitdiff` reads `args.keep_original_order`, which only the `diff` parser defines; the `AttributeError` is caught and the command exits 1 | `protool gitdiff -g path old oldhex oldmode new newhex newmode` | diff `git_args[1]` against `git_args[4]` with sorted keys unless asked otherwise | high, not executed | CommandLine.GitDiffAsWrittenAlwaysFails | CommandLine.GitDiffComparesOldAndNew |
| protool/__init__.py:199-206 | both texts are written to `temp_dir/<base name>`; equal base names share one file, so the second write replaces the first | `diff -p old/App.mobileprovision new/App.mobileprovision` compares the new profile with itself | keep the two staged files apart under their own names (the source's own paths whenever the names differ) | high, not executed | ProfileDiff.SameNameClobbers | ProfileDiff.Stage |
