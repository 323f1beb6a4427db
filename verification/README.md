# libcnb.rs runtime, transfer, files, test results and mode: a Dafny model

This project models the core of a fork of libcnb.rs, a Rust library for
writing Cloud Native Buildpacks. Upstream provides the detect and build
phases; the fork adds test and publish. The model covers five parts of
the library:

- **Runtime (`runtime.dfy`, src/runtime.rs).** `cnb_runtime_all` and `cnb_runtime`
  dispatch. Each is a pure function from an `Invocation` to a `Run`: the
  effects, in order, followed by either an exit code or a normal return.
  - The invocation holds argv and a static snapshot of the world. The
    snapshot has the working directory, the environment, the platform
    directories, the buildpack plans, the buildpack descriptors by path,
    and the set of writable paths.
  - The four phase functions and the error handler are function-typed
    fields of the invocation.
  - Modelled behaviour:
    - the descriptor gate against buildpack API 0.6 (exit 254 on a
      mismatch);
    - dispatch on the file name of argv[0] (exit 255 on an unknown name);
    - the exact argument count of each phase (exit 1 otherwise);
    - context assembly, which stops at the first failing source;
    - the translation of phase outcomes into exit codes. Detect uses 0
      for pass and 100 for fail (the "Detection" section of the Cloud
      Native Buildpacks Buildpack Interface Specification). Build and
      publish return normally on success. Test exits 0 for a pass and 1
      for a failure.
- **Transfer (`transfer.dfy`, src/transfer.rs).** `get_and_extract`, over an archive given
  as a list of entries. Each entry is unreadable or has a path of
  components.
  - With a prefix, the path is stripped component by component:
    - an unreadable entry is skipped;
    - an empty remainder is skipped;
    - a path outside the prefix aborts the call, keeping the entries
      already written.
  - The returned hash is a parameter function of the raw downloaded bytes.
  - `compress` is modelled through the entry names it writes.
  - `compress_and_put` is modelled through the order of its effects.
- **Files (`files.dfy`, src/files.rs).**
  - `join` and `read_file_join`: drop the LF and CRLF line terminators
    and concatenate the lines.
  - The `@word` annotation pattern, as an explicit ASCII predicate.
  - `find_one_file`, over an abstract walk of directory entries.
- **Test results (`test_results.dfy`, src/test.rs).**
  - The constructors.
  - Which keys the serialised `TestResults` document contains.
  - The write-then-print order of `write_test_results`.
- **Lifecycle mode (`mode.dfy`, src/mode.rs).** `LifecycleMode::from`.

`paths.dfy` holds the part of `std::path` the runtime relies on:
`Path::file_name` and `PathBuf::join`. `wrappers.dfy` holds
`Option`/`Result`.

Three behaviours of the code are worth naming:

- **Mode names are case-sensitive.** `LifecycleMode::from` matches exactly
  `"Dev"`, `"Test"` and `"Package"` (src/mode.rs:11-13); any other
  spelling gives `CI`. `Mode.LowerCaseFallsBackToCI` states it.
- **The build plan is read before the buildpack directory.** The build
  phase reads the buildpack plan before `CNB_BUILDPACK_DIR` and the
  descriptor (src/runtime.rs:267-277), so a missing plan is reported
  first. `Runtime.AssemblyStopsAtFirstFailure` states the reading order.
- **Phase functions fail with the library's error type.** The four phase
  functions return `Error`, the type the handler receives, and whatever
  error they return reaches the handler unchanged (src/runtime.rs:115-116,
  239, 280, 312, 351). A phase function may return one of the runtime's
  own error kinds as well as the buildpack's own error.

## Model

| member | source | states |
|---|---|---|
| Runtime.ReadBuildpackToml | src/runtime.rs:440-445 | The descriptor is read from `buildpack.toml` inside `CNB_BUILDPACK_DIR`. A missing variable fails with `CannotDetermineBuildpackDirectory`. A missing file fails with `CannotReadBuildpackDescriptor`. |
| Runtime.ReadBuildpackDir | src/runtime.rs:434-438 | The buildpack directory is the value of `CNB_BUILDPACK_DIR`, unchanged. It fails with `CannotDetermineBuildpackDirectory` exactly when the variable is unset. |
| Runtime.DescriptorPathNamesDescriptor | src/runtime.rs:441-442 | Whatever the buildpack directory, the path looked up has the file name `buildpack.toml`. |
| Runtime.ParseArgs | src/runtime.rs:374-432 | Parsing succeeds exactly when argv has the phase's length: detect 3, build 4, test 3, publish 2. The parsed arguments are argv after the program name, in order. |
| Runtime.ParseArgsRoundTrip | src/runtime.rs:374-432 | Any phase's arguments, written after any program name, parse back to themselves. |
| Runtime.AssembleContext | src/runtime.rs:222-237 | A successful assembly has the working directory, `CNB_STACK_ID`, the platform of the platform argument, `CNB_BUILDPACK_DIR` and the descriptor. Build also gets the layers argument and the plan read from the plan argument; test gets the layers argument. |
| Runtime.FirstFailureIsFirst | src/runtime.rs:260-278 | The scan over sources finds nothing exactly when no source fails. When it finds an error, that error belongs to a failing source with no failing source before it. |
| Runtime.AssemblyStopsAtFirstFailure | src/runtime.rs:260-278 | Assembly fails exactly when a source fails. It then fails with the error of the first failing source in the order app dir, stack id, platform, (build) plan, buildpack dir, descriptor. |
| Runtime.FirstFailureCons | src/runtime.rs:260-278 | One step of the scan: a failing head source stops it, otherwise it continues with the rest. |
| Runtime.AssemblyPastGateFailsEarly | src/runtime.rs:66-86 | Once the descriptor gate has passed, assembly can fail only on the app dir, the stack id, the platform or the plan. It cannot fail on the buildpack dir or the descriptor. |
| Runtime.Prepare | src/runtime.rs:220-237 | Bad arguments are reported exactly when the argv length is wrong. A prepared context is for the requested phase and is assembled from the parsed arguments. |
| Runtime.DetectPhase | src/runtime.rs:239-245 | Exit 0 happens exactly when detection passes and the plan path is writable; the plan is then written to that path. Exit 100 happens exactly on `Fail`, with nothing written. An error from the detect function is returned unchanged. |
| Runtime.BuildPhase | src/runtime.rs:280 | Build returns the build function's result with no further effects: success exactly when the function succeeds, and otherwise the function's own error, unchanged. |
| Runtime.TestPhase | src/runtime.rs:311-323 | The phase exits exactly when the test function succeeds and the results can be written. The exit code is 0 for a pass and 1 for a failure, and the first effect writes the serialised results to `.`. An error from the test function is returned unchanged. |
| Runtime.PublishPhase | src/runtime.rs:351 | Publish returns the publish function's result with no further effects: success exactly when the function succeeds, and otherwise the function's own error, unchanged. |
| Runtime.AfterPhase | src/runtime.rs:239-245 | After the phase function, no phase calls another phase function or the handler. Only detect writes a plan, and only to its plan path. Exit codes are 0, 1 or 100. |
| Runtime.RunPhase | src/runtime.rs:212-352 | A phase calls its function at most once, as its first effect. The function gets the context assembled for this phase from an argv of the right length. A wrong length gives exit 1 with no effects. Only detect writes a plan, to argv[2]. |
| Runtime.PhaseNamed | src/runtime.rs:98-102 | Exactly `detect`, `build`, `test` and `publish` name phases. |
| Runtime.InvokedPhaseByFileName | src/runtime.rs:90-102 | Only the final path component of argv[0] selects the phase: `/x/y/build` and `build` both select build. |
| Runtime.InvokedPhaseIsExecutableName | src/runtime.rs:88-102 | `InvokedPhase` selects a phase exactly when the file name of argv[0] is that phase's executable name (`detect`, `build`, `test`, `publish`). Only argv[0] takes part in the choice. |
| Runtime.Dispatch | src/runtime.rs:66-117 | If the descriptor is unreadable, the handler is called on the descriptor error and its code is the exit code. A mismatched API exits 254. An unknown or unsupported name exits 255. A wrong argv length exits 1. In each of these cases no phase function runs. |
| Runtime.CnbRuntimeAll | src/runtime.rs:59-118 | The four-phase entry point exits 255 when argv[0] names no phase and 254 on an API mismatch. |
| Runtime.CnbRuntime | src/runtime.rs:155-210 | The detect/build entry point exits 255 for `test` and `publish`. For every other name it behaves exactly as the four-phase one. |
| Runtime.DispatchRunsPhase | src/runtime.rs:97-117 | Once the gate has passed and a supported phase is named, the run is that phase's run followed by the entry point's handling of its result. |
| Runtime.FinishEffect | src/runtime.rs:115-117 | The entry point keeps the phase's effects and adds at most a handler call after them. |
| Runtime.FinishOutcome | src/runtime.rs:115-117 | `Finish` keeps the phase's effects. An error returned by the phase goes to the handler once, as the last effect, and the handler's code is the exit code. A phase that exits keeps its own code, and a successful return ends the run normally with nothing added. |
| Runtime.PhaseFunctionRunsOnlyWhenDispatched | src/runtime.rs:66-112 | A phase function runs only as the first effect. It runs only after the gate passed and argv[0] named that phase, and only with the exact argv length. |
| Runtime.HandlerEndsTheRun | src/runtime.rs:83-85 | The handler is called at most once, as the last effect, and the exit code is its result. |
| Runtime.ExitCodesWithoutHandler | src/runtime.rs:66-117 | A run without a handler call ends by returning or with exit code 0, 1, 100, 254 or 255. |
| Runtime.ContextFailureIsHandled | src/runtime.rs:115-117 | A failing context source goes to the handler, whose code is the exit code; the phase function is not called. |
| Runtime.DetectOutcomes | src/runtime.rs:239-245 | `Pass(plan)` writes the plan to argv[2] and exits 0; if the path is not writable, `CannotWriteBuildPlan` goes to the handler instead. `Fail` exits 100 with no write. An error goes to the handler. |
| Runtime.TestOutcomes | src/runtime.rs:311-323 | Both test outcomes write the serialised results to `.`, then print the summary. A pass then exits 0 and a failure exits 1. A failed write goes to the handler as `CannotWriteTestResults`. An error from the test function goes to the handler unchanged. |
| Runtime.BuildAndPublishOutcomes | src/runtime.rs:280 | Build and publish return normally on `Ok`. On `Err`, the function's own error goes to the handler, and the handler's code is the exit code. |
| Runtime.PreparedContextIsFed | src/runtime.rs:377-425 | A prepared context is fed from the fixed argument positions of its phase. |
| Runtime.PositionalMapping | src/runtime.rs:377-425 | Every context a phase function receives comes from fixed positions. Detect takes the platform from argv[1]. Build takes layers from argv[1], the platform from argv[2] and the plan from argv[3]. Test takes layers from argv[1] and the platform from argv[2]. Publish takes the platform from argv[1]. |
| Runtime.BuildPlanPathFromArguments | src/runtime.rs:374-380 | Detect writes its plan only to the path given as argv[2], and only when there are exactly three arguments. |
| Paths.FileName | src/runtime.rs:90-95 | `Path::file_name` yields a normal component: non-empty, with no '/', and not `.` or `..`. |
| Paths.FileNameOfChild | src/runtime.rs:90-95 | The file name of `dir/name` is `name`. |
| Paths.FileNameIgnoresTrailingSlash | src/runtime.rs:90-95 | A trailing '/' does not change the file name. |
| Paths.FileNameOfJoin | src/runtime.rs:442 | Joining a directory with a normal name gives a path whose file name is that name. |
| Transfer.ExtractWithPrefix | src/transfer.rs:32-39 | The call fails exactly when some entry's path lies outside the prefix, or some entry's unpack fails. On success, the targets written are `Writes`: the readable entries with a non-empty remainder, in order. On failure they are the writes of the entries before the first failing one. |
| Transfer.WritesAreStrippedEntries | src/transfer.rs:33-37 | Every target in `Transfer.Writes` (the per-entry steps of `Transfer.EntryStep`, in order) is `dst` joined with a non-empty remainder, and the prefix followed by that remainder is an archive entry. |
| Transfer.WritesAreComplete | src/transfer.rs:33-37 | Every entry under the prefix with a non-empty remainder, whose unpack succeeds, is in `Transfer.Writes`. |
| Transfer.PrefixWriteMayLeaveDestination | src/transfer.rs:35-37 | The remainder is joined onto `dst` as it is, `..` included. Under the prefix `p`, the entry `p/../etc` is written at `dst` joined with `../etc`, which lies outside `dst`. |
| Transfer.PrefixEntryNotWritten | src/transfer.rs:36 | The entry equal to the prefix (empty remainder) is never written. |
| Transfer.GetAndExtract | src/transfer.rs:20-45 | A failed download has no effects and gives an HTTP error. A successful result is the digest of the raw downloaded bytes, whatever the prefix and the extraction. Without a prefix the whole archive is unpacked into `dst`. With a prefix the effects are the entry writes, also up to the first failing entry. |
| Transfer.ArchiveNames | src/transfer.rs:69 | The first name is `./`; every later name is non-empty, relative, and not `./`. |
| Transfer.NameOf | src/transfer.rs:69 | A walked path's name is non-empty, relative and not `./`. |
| Transfer.SegmentsOfJoin | src/transfer.rs:69 | A name joined from components splits back into those components. |
| Transfer.NameParses | src/transfer.rs:93-124 | A walked path's entry name reads back as that path. |
| Transfer.ArchiveNamesRoundTrip | src/transfer.rs:93-124 | Reading the entry names back gives the root (no components) first, then the walked paths in walk order. Example: `./`, `src`, `src/Dummy.apex`. |
| Transfer.Compress | src/transfer.rs:65-71 | Compression succeeds exactly when the archive file is created and the walk succeeds. A failed create gives `FileError`, and a failed walk gives `ArchiveError`. On success the names are `ArchiveNames` of the walk, one per walked path after the root. |
| Transfer.CompressedNamesReadBack | src/transfer.rs:65-71 | On success the first name reads back as the root, and name i+1 reads back as the i-th walked path. |
| Transfer.Put | src/transfer.rs:47-52 | `put` succeeds exactly when the file opens and a response arrives, whatever its HTTP status; the response is returned unchanged. |
| Transfer.CompressAndPut | src/transfer.rs:54-63 | The first effect creates the temporary directory and the last removes it. Success happens exactly when compress and put both succeed. An upload sends `source.tar.xz` from the temporary directory to the URL, and the archive is written at that path before it. A failed compress uploads nothing. A success is exactly: create the directory, write the archive with the names `Compress` gives, upload it, remove the directory. A failed put leaves out only the upload. |
| Files.Lines | src/files.rs:55 | No line that `lines()` yields contains a '\n'. |
| Files.JoinDropsTerminators | src/files.rs:52-67 | `join` (`Files.Join`) equals the character-level reference: every '\n' is dropped, together with a '\r' just before it. |
| Files.JoinProperties | src/files.rs:55-62 | The output of `join` has no '\n', and text without '\n' comes back unchanged. |
| Files.JoinUnlines | src/files.rs:99-103 | Lines with no terminator inside, each ended by "\n" or "\r\n", join back to their concatenation. An example is "THIS\nIS\nDIS\nJOINTED\n", which gives "THISISDISJOINTED". |
| Files.DropTerminatorsHasNoNewline | src/files.rs:55-62 | The reference definition leaves no '\n'. |
| Files.DropTerminatorsOfLine | src/files.rs:55-62 | Text without '\n' is unchanged by the reference definition. |
| Files.DropTerminatorsOfLineAndRest | src/files.rs:57-62 | The reference drops a line's "\n" (or "\r\n") and continues with the rest. |
| Files.ReadFileJoin | src/files.rs:34-50 | Reading fails exactly when the file cannot be opened. For a file whose text reads without error, the result is the file's content with its terminators dropped, as `join` gives it, and contains no '\n'. |
| Files.MatchFrom | src/files.rs:87-90 | The scan from a position finds a match exactly when one starts at or after that position. |
| Files.IsMatch | src/files.rs:83-90 | `is_match` is true exactly when the annotation predicate holds somewhere in the text. The predicate (`Files.AnnotationMatches`, `Files.MatchesAt`) reads `@(\b)(?i:word)(\b)` on ASCII text: `@`, a word boundary, the word in any letter case, and another word boundary. |
| Files.AnnotationAtStart | src/files.rs:116-123 | `@` followed by the word in any letter case, then the end or a non-word character, matches, as `@IsTest`, `@isTest` and `@ISTEST` do. |
| Files.NoMatchBeforeWordChar | src/files.rs:124 | A word followed by a word character does not match there, as `@IsTesty` does not. |
| Files.NoMatchWithoutAt | src/files.rs:125 | Text with no `@` never matches, as `IsTest public class` does not. |
| Files.NoMatchAfterNonWordChar | src/files.rs:126 | `@` followed by a non-word character does not match there, as `@ IsTest` does not. |
| Files.MatchIgnoresCaseOfWord | src/files.rs:84 | Words that differ only in letter case match the same texts. |
| Files.FindOneFile | src/files.rs:8-23 | The result is true exactly when some regular file among the walked entries has content matching the pattern. Directories, walk errors and unreadable files never match. |
| TestModel.NewTestResults | src/test.rs:43-52 | New results have empty `passed`, `failed` and `ignored` lists and status `Ready`. |
| TestModel.NewTestResult | src/test.rs:60-64 | A new result keeps its description and status unchanged. |
| TestModel.SerializedKeys | src/test.rs:32-41 | In the document `TestModel.Serialize` produces, `passed`, `failed` and `ignored` each appear exactly when that list is non-empty. `status` always appears, and no other key does. |
| TestModel.SerializeRoundTrip | src/test.rs:32-41 | Reading the serialised document back, with an absent list read as empty, gives the same results. |
| TestModel.EmptyResultsSerializeStatusOnly | src/test.rs:34-40 | Results with nothing recorded serialise to the status key alone. |
| TestModel.WriteTestResults | src/test.rs:66-74 | The result is Ok exactly when the write succeeds. A failed write prints nothing. A successful write records the serialised document at the path first and then prints the status. No summary comes before the write. |
| Mode.FromString | src/mode.rs:9-16 | `Dev`, `Test` and `Package` each result exactly from their own exact name. `CI` results from every other string. The function is total. |
| Mode.FromNameRoundTrip | src/mode.rs:9-16 | Parsing a mode's canonical name gives that mode back. |
| Mode.LowerCaseFallsBackToCI | src/mode.rs:14 | Lower-case spellings such as `dev`, `test`, `package` and `ci`, and the empty string, give `CI`. |

## Left out

- HTTP is not modelled. This covers `reqwest` (`get`, `get_and_extract`'s
  download and `put`'s send): its outcomes are parameters (`response`,
  `sent`). `get` (src/transfer.rs:15-18) is a plain download with no logic
  of its own.
- The foreign codecs are not modelled: xz compression, the tar binary
  format and SHA-256. `decode` (bytes to entries) and `digest` are
  parameter functions. Whether an entry's unpack succeeds is a parameter
  predicate, and so is whether `archive.unpack` succeeds.
- TOML and serde encoding are not modelled. A document is its list of
  top-level keys and values; the text is not modelled.
- Runtime.Error: the causes carried by the library's error kinds (the
  `io::Error`, the `VarError`, the TOML file error) are dropped. A
  handler sees only the kind, so the model cannot express a handler that
  chooses its exit code from the cause.
- The file system and the environment are a static snapshot.
  - This covers `env::current_dir`, `env::var`, `read_toml_file`,
    `write_toml_file`, the platform's `from_path`, `WalkDir`, and the
    tempdir's removal on drop.
  - Two reads of the same source see the same value, so
    `read_buildpack_toml` before dispatch and inside the phase agree.
  - A write fails exactly when its path is not in the writable set.
- `process::exit` becomes an `Exit(code)` end. The code is not truncated
  to the platform's exit status width.
- stderr and stdout wording is not modelled, including the usage messages.
  The test phase's usage line names one argument although two are
  required; only the required count is modelled.
- The `regex` engine is replaced by the ASCII predicate
  `Files.AnnotationMatches`.
  - Unicode `\b` and Unicode case folding are not modelled; word
    characters are ASCII letters, digits and `_`.
  - Regex metacharacters in the word are treated as literal characters.
- `join` drops lines that are not valid UTF-8; the model works on
  characters and does not model that. For the same reason the dead branch
  in `join` that pops a trailing '\n' is left out: `lines()` has already
  removed it.
- Files.ReadFileJoin: the model's input is the text the reads deliver, so
  it has no case for a file that opens but then fails to read. The source
  filters out failed line reads (`filter_map(|result| result.ok())`), so
  such lines are dropped silently. When the error repeats, as when the
  path names a directory, the line iterator yields errors forever and the
  call never returns. Lines that are not valid UTF-8 are dropped here as
  in `join`.
- `read_file_to_string` failing on non-UTF-8 content is modelled as an
  unreadable file (`RegularFile(None)`).
- The panics are not modelled: `e.metadata().unwrap()` in
  `find_one_file`, and `tempdir().unwrap()` in `compress_and_put`. The
  tempdir is assumed to be created.
- `write_file` and `read_file` (public helpers of src/files.rs, re-exported
  by src/lib.rs) are not modelled: they are outside the modelled core.
- The `cfg(unix)` gating is not modelled, nor the lint attributes of
  src/lib.rs. Only its supported-API constant is used
  (`Runtime.SupportedApi`).
- src/publish.rs is a plain struct; it is folded into
  `Runtime.PublishContext`.
- The Ruby integration specs under spec/ run the external `pack` tool and
  have no logic to model.
- `Runtime.Dispatch` models both entry points with one function,
  parameterised by the set of phases they accept. The two Rust functions
  differ only in that set and in their messages.
- Transfer.Compress: the model records only the entry names
  `append_dir_all` writes, in walk order. File contents and the errors
  ignored when the builder finishes on drop are not modelled.
- Transfer.WritesAreStrippedEntries: a target is `dst` paired with the
  remainder, unresolved. The model does not promise that a target lies
  inside `dst`, and the source does not ensure it either: `strip_prefix`
  keeps `..` components, and `Entry::unpack` does not reject them, unlike
  the archive-wide `unpack` of the prefix-less branch. So with a prefix, an
  archive can write outside `dst` (`Transfer.PrefixWriteMayLeaveDestination`).
- Files.JoinUnlines: the test strings of src/files.rs are covered by this
  general round trip and by the annotation lemmas, rather than by
  evaluating the literal strings.
