/** The asset transfer operations of src/transfer.rs. HTTP, xz, the tar
    format and SHA-256 are foreign code: their results are parameters. */
module Transfer {
  import opened Wrappers
  import opened Paths

  newtype Byte = x: int | 0 <= x < 256

  /** A relative path inside an archive, as its components. Archive entries
      may hold any component, `..` included; the paths a directory walk
      yields hold normal components only (`IsRelPath`). */
  type RelPath = seq<string>

  /** An archive entry as the entry iterator yields it: one that failed to
      read, or a readable entry with its path. */
  datatype ArchiveEntry = Unreadable | Entry(path: RelPath)

  /** Where an entry is unpacked: `dst` joined with the stripped path. */
  datatype Target = Target(dir: Path, rel: RelPath)

  datatype TransferError =
    | HttpError          // the GET, the PUT or reading the body failed
    | StripPrefixError   // an entry path does not start with the prefix
    | UnpackError        // writing an entry or the archive failed
    | FileError          // creating or opening the local archive file failed
    | ArchiveError       // building the tar stream failed

  /** Observable effects of the transfer operations, in order. */
  datatype Effect =
    | UnpackedEntry(target: Target)
    | UnpackedArchive(dst: Path)
    | CreatedTempDir(dir: Path)
    | WroteArchive(path: Path, names: seq<string>)
    | Uploaded(path: Path, url: string)
    | RemovedTempDir(dir: Path)

  // ------------------------------------------------------- get_and_extract

  /** `Path::starts_with`, component-wise. */
  predicate HasPrefix(path: RelPath, prefix: RelPath) {
    |prefix| <= |path| && path[..|prefix|] == prefix
  }

  /** What happens to one entry when a prefix is given. */
  datatype Step = Skip | Write(target: Target) | Abort(error: TransferError)

  /** Unreadable entries are skipped; an entry outside the prefix aborts; an
      entry equal to the prefix is skipped; any other entry is unpacked at
      `dst` joined with the rest of its path, and a failed unpack aborts.
      `unpacks` says which unpacks the file system allows. */
  function EntryStep(e: ArchiveEntry, prefix: RelPath, dst: Path, unpacks: Target -> bool): Step {
    match e
    case Unreadable => Skip
    case Entry(path) =>
      if !HasPrefix(path, prefix) then Abort(StripPrefixError)
      else
        var rel := path[|prefix|..];
        if rel == [] then Skip
        else if unpacks(Target(dst, rel)) then Write(Target(dst, rel))
        else Abort(UnpackError)
  }

  /** The targets written by the entries, in order, when none aborts. */
  function Writes(entries: seq<ArchiveEntry>, prefix: RelPath, dst: Path, unpacks: Target -> bool)
    : seq<Target>
  {
    if |entries| == 0 then []
    else
      var last := EntryStep(entries[|entries| - 1], prefix, dst, unpacks);
      Writes(entries[..|entries| - 1], prefix, dst, unpacks)
        + (if last.Write? then [last.target] else [])
  }

  predicate Aborts(e: ArchiveEntry, prefix: RelPath, dst: Path, unpacks: Target -> bool) {
    EntryStep(e, prefix, dst, unpacks).Abort?
  }

  /** The entry loop of `get_and_extract` with a prefix. On success every
      entry has been processed; on failure the loop stopped at the first
      aborting entry, whose error it returns, and only the entries before it
      were written. */
  method ExtractWithPrefix(entries: seq<ArchiveEntry>, prefix: RelPath, dst: Path, unpacks: Target -> bool)
    returns (written: seq<Target>, failure: Option<TransferError>)
    ensures failure.None? <==> forall i :: 0 <= i < |entries| ==> !Aborts(entries[i], prefix, dst, unpacks)
    ensures failure.None? ==> written == Writes(entries, prefix, dst, unpacks)
    ensures failure.Some? ==>
              exists k :: 0 <= k < |entries|
                && Aborts(entries[k], prefix, dst, unpacks)
                && failure.value == EntryStep(entries[k], prefix, dst, unpacks).error
                && (forall j :: 0 <= j < k ==> !Aborts(entries[j], prefix, dst, unpacks))
                && written == Writes(entries[..k], prefix, dst, unpacks)
  {
    written := [];
    var k := 0;
    while k < |entries|
      invariant 0 <= k <= |entries|
      invariant forall j :: 0 <= j < k ==> !Aborts(entries[j], prefix, dst, unpacks)
      invariant written == Writes(entries[..k], prefix, dst, unpacks)
    {
      var step := EntryStep(entries[k], prefix, dst, unpacks);
      assert entries[..k + 1][..k] == entries[..k];
      match step {
        case Abort(e) =>
          return written, Some(e);
        case Skip =>
        case Write(t) =>
          written := written + [t];
      }
      k := k + 1;
    }
    assert entries[..k] == entries;
    failure := None;
  }

  /** Every written target is `dst` joined with a non-empty remainder, and
      that remainder is the path of a readable entry with the prefix removed. */
  lemma {:induction false} WritesAreStrippedEntries(
    entries: seq<ArchiveEntry>, prefix: RelPath, dst: Path, unpacks: Target -> bool, t: Target)
    requires t in Writes(entries, prefix, dst, unpacks)
    ensures t.dir == dst && t.rel != []
    ensures Entry(prefix + t.rel) in entries
    decreases |entries|
  {
    var init := entries[..|entries| - 1];
    var e := entries[|entries| - 1];
    var step := EntryStep(e, prefix, dst, unpacks);
    if t in Writes(init, prefix, dst, unpacks) {
      WritesAreStrippedEntries(init, prefix, dst, unpacks, t);
      assert Entry(prefix + t.rel) in init;
      assert forall x :: x in init ==> x in entries;
    } else {
      assert step.Write? && t == step.target;
      assert e.path == e.path[..|prefix|] + e.path[|prefix|..];
      assert e == Entry(prefix + t.rel);
    }
  }

  /** Every readable entry under the prefix with a non-empty remainder that
      the file system accepts is written. */
  lemma {:induction false} WritesAreComplete(
    entries: seq<ArchiveEntry>, prefix: RelPath, dst: Path, unpacks: Target -> bool, rel: RelPath)
    requires Entry(prefix + rel) in entries && rel != [] && unpacks(Target(dst, rel))
    ensures Target(dst, rel) in Writes(entries, prefix, dst, unpacks)
    decreases |entries|
  {
    var init := entries[..|entries| - 1];
    var e := entries[|entries| - 1];
    if e == Entry(prefix + rel) {
      assert (prefix + rel)[..|prefix|] == prefix;
      assert (prefix + rel)[|prefix|..] == rel;
    } else {
      assert entries == init + [e];
      assert Entry(prefix + rel) in init;
      WritesAreComplete(init, prefix, dst, unpacks, rel);
    }
  }

  /** An entry exactly equal to the prefix (the archive's top directory) is
      never written: no written target has an empty path. */
  lemma PrefixEntryNotWritten(entries: seq<ArchiveEntry>, prefix: RelPath, dst: Path, unpacks: Target -> bool)
    ensures Target(dst, []) !in Writes(entries, prefix, dst, unpacks)
  {
  }

  /** One `UnpackedEntry` effect per written target, in order. */
  function EntryEffects(ts: seq<Target>): (es: seq<Effect>)
    ensures |es| == |ts|
    ensures forall i :: 0 <= i < |ts| ==> es[i] == UnpackedEntry(ts[i])
  {
    seq(|ts|, i requires 0 <= i < |ts| => UnpackedEntry(ts[i]))
  }

  /** `get_and_extract(uri, dst, prefix)`. `response` is the downloaded body
      (`None` when the GET or reading the body fails), `decode` the entries the
      xz and tar decoders yield for it, `digest` the hex SHA-256 function,
      `unpacks` which single-entry unpacks succeed and `unpackAllSucceeds`
      whether unpacking the whole archive succeeds. */
  method GetAndExtract(
    response: Option<seq<Byte>>,
    decode: seq<Byte> -> seq<ArchiveEntry>,
    digest: seq<Byte> -> string,
    dst: Path,
    prefix: Option<RelPath>,
    unpacks: Target -> bool,
    unpackAllSucceeds: bool)
    returns (effects: seq<Effect>, result: Result<string, TransferError>)
    ensures response.None? ==> effects == [] && result == Err(HttpError)
    ensures result.Ok? ==> response.Some? && result.value == digest(response.value)
    ensures response.Some? && prefix.None? ==>
              && effects == [UnpackedArchive(dst)]
              && (result.Ok? <==> unpackAllSucceeds)
    ensures response.Some? && prefix.Some? ==>
              var entries := decode(response.value);
              && (result.Ok? <==> forall i :: 0 <= i < |entries| ==> !Aborts(entries[i], prefix.value, dst, unpacks))
              && (result.Ok? ==> effects == EntryEffects(Writes(entries, prefix.value, dst, unpacks)))
              && (result.Err? ==>
                    exists k :: 0 <= k < |entries|
                      && Aborts(entries[k], prefix.value, dst, unpacks)
                      && (forall j :: 0 <= j < k ==> !Aborts(entries[j], prefix.value, dst, unpacks))
                      && effects == EntryEffects(Writes(entries[..k], prefix.value, dst, unpacks)))
  {
    if response.None? {
      return [], Err(HttpError);
    }
    var content := response.value;
    var hash := digest(content);
    if prefix.None? {
      effects := [UnpackedArchive(dst)];
      result := if unpackAllSucceeds then Ok(hash) else Err(UnpackError);
      return;
    }
    var written, failure := ExtractWithPrefix(decode(content), prefix.value, dst, unpacks);
    effects := EntryEffects(written);
    result := if failure.None? then Ok(hash) else Err(failure.value);
  }

  // ------------------------------------------------------------ compress

  /** Components joined with '/', as a tar entry name. */
  function JoinComponents(p: RelPath): string
    requires |p| > 0
  {
    if |p| == 1 then p[0] else JoinComponents(p[..|p| - 1]) + "/" + p[|p| - 1]
  }

  /** A path below the source directory as the directory walk reports it. */
  predicate IsRelPath(p: RelPath) {
    |p| > 0 && forall k :: 0 <= k < |p| ==> IsNormalName(p[k])
  }

  /** The entry names `append_dir_all(".", path)` writes, given the walk order
      of the tree below `path`: the root first as "./", then every path
      relative to the root, such as "src" and "src/Dummy.apex". */
  function ArchiveNames(tree: seq<RelPath>): (names: seq<string>)
    requires forall i :: 0 <= i < |tree| ==> IsRelPath(tree[i])
    ensures |names| == |tree| + 1 && names[0] == "./"
    ensures forall i :: 1 <= i < |names| ==> names[i] != "./" && |names[i]| > 0 && names[i][0] != '/'
  {
    ["./"] + seq(|tree|, i requires 0 <= i < |tree| => NameOf(tree[i]))
  }

  /** The name of one walked path: neither the root marker nor absolute. */
  function NameOf(p: RelPath): (name: string)
    requires IsRelPath(p)
    ensures name != "./" && |name| > 0 && name[0] != '/'
  {
    NameParses(p);
    SegmentsOf("./", ".", "");
    JoinStartsWithFirst(p);
    assert p[0][0] in p[0];
    JoinComponents(p)
  }

  /** A joined name begins with its first component. */
  lemma {:induction false} JoinStartsWithFirst(p: RelPath)
    requires |p| > 0
    ensures |JoinComponents(p)| >= |p[0]| && JoinComponents(p)[..|p[0]|] == p[0]
    decreases |p|
  {
    if |p| > 1 {
      var init := p[..|p| - 1];
      JoinStartsWithFirst(init);
      assert init[0] == p[0];
    }
  }

  lemma SegmentsOf(s: string, a: string, b: string)
    requires s == a + "/" + b && '/' !in a && '/' !in b
    ensures Segments(s) == [a, b]
  {
    SegmentsOfAppend(a, b);
    SegmentsOfName(a);
  }

  /** The normal components of an entry name, as `Path::components` reads it. */
  function ParseName(name: string): RelPath {
    NormalSegments(Segments(name))
  }

  function NormalSegments(segs: seq<string>): seq<string> {
    if |segs| == 0 then []
    else
      var last := segs[|segs| - 1];
      NormalSegments(segs[..|segs| - 1]) + (if last == "" || last == "." then [] else [last])
  }

  /** Joining components with '/' splits back into the same components. */
  lemma {:induction false} SegmentsOfJoin(p: RelPath)
    requires IsRelPath(p)
    ensures Segments(JoinComponents(p)) == p
    decreases |p|
  {
    if |p| == 1 {
      SegmentsOfName(p[0]);
    } else {
      var init := p[..|p| - 1];
      assert IsRelPath(init) by {
        assert forall k :: 0 <= k < |init| ==> init[k] == p[k];
      }
      SegmentsOfJoin(init);
      SegmentsOfAppend(JoinComponents(init), p[|p| - 1]);
      assert init + [p[|p| - 1]] == p;
    }
  }

  /** Normal components are all kept. */
  lemma {:induction false} NormalSegmentsKeepsNormal(p: seq<string>)
    requires forall k :: 0 <= k < |p| ==> IsNormalName(p[k])
    ensures NormalSegments(p) == p
    decreases |p|
  {
    if |p| > 0 {
      var init := p[..|p| - 1];
      assert forall k :: 0 <= k < |init| ==> init[k] == p[k];
      NormalSegmentsKeepsNormal(init);
      assert init + [p[|p| - 1]] == p;
    }
  }

  /** The name of a walked path reads back as that path. */
  lemma NameParses(p: RelPath)
    requires IsRelPath(p)
    ensures Segments(JoinComponents(p)) == p
    ensures ParseName(JoinComponents(p)) == p
  {
    SegmentsOfJoin(p);
    NormalSegmentsKeepsNormal(p);
  }

  /** Round trip: reading the names back gives the root (no components)
      followed by the walked paths, in walk order. */
  lemma ArchiveNamesRoundTrip(tree: seq<RelPath>)
    requires forall i :: 0 <= i < |tree| ==> IsRelPath(tree[i])
    ensures forall i :: 0 <= i < |tree| ==> ParseName(ArchiveNames(tree)[i + 1]) == tree[i]
    ensures ParseName(ArchiveNames(tree)[0]) == []
  {
    SegmentsOf("./", ".", "");
    assert NormalSegments(["."]) == [];
    assert NormalSegments([".", ""]) == NormalSegments(["."]);
    forall i | 0 <= i < |tree|
      ensures ParseName(ArchiveNames(tree)[i + 1]) == tree[i]
    {
      NameParses(tree[i]);
    }
  }

  /** `compress(path, file_path)`: creating the archive file and walking the
      source tree (`walk`, `None` when it fails) can each fail. */
  function Compress(createSucceeds: bool, walk: Option<seq<RelPath>>): (r: Result<seq<string>, TransferError>)
    requires walk.Some? ==> forall i :: 0 <= i < |walk.value| ==> IsRelPath(walk.value[i])
    ensures r.Ok? <==> createSucceeds && walk.Some?
    ensures !createSucceeds ==> r == Err(FileError)
    ensures createSucceeds && walk.None? ==> r == Err(ArchiveError)
    ensures r.Ok? ==> r.value == ArchiveNames(walk.value)
  {
    if !createSucceeds then Err(FileError)
    else if walk.None? then Err(ArchiveError)
    else Ok(ArchiveNames(walk.value))
  }

  /** The remainder is joined onto `dst` as it is: an entry `p/../etc` under
      the prefix `p` is unpacked at `dst/../etc`, outside `dst`. */
  lemma PrefixWriteMayLeaveDestination(dst: Path, unpacks: Target -> bool)
    requires unpacks(Target(dst, ["..", "etc"]))
    ensures Writes([Entry(["p", "..", "etc"])], ["p"], dst, unpacks) == [Target(dst, ["..", "etc"])]
    ensures !Aborts(Entry(["p", "..", "etc"]), ["p"], dst, unpacks)
  {
    var e := Entry(["p", "..", "etc"]);
    assert HasPrefix(e.path, ["p"]);
    assert e.path[1..] == ["..", "etc"];
    assert [e][..0] == [];
  }

  /** What a successful compression writes: the root first, then the walked
      paths, each name reading back as its path. */
  lemma CompressedNamesReadBack(createSucceeds: bool, walk: Option<seq<RelPath>>)
    requires walk.Some? ==> forall i :: 0 <= i < |walk.value| ==> IsRelPath(walk.value[i])
    ensures Compress(createSucceeds, walk).Ok? ==> ParseName(Compress(createSucceeds, walk).value[0]) == []
    ensures Compress(createSucceeds, walk).Ok? ==>
              forall i :: 0 <= i < |walk.value| ==> ParseName(Compress(createSucceeds, walk).value[i + 1]) == walk.value[i]
  {
    if walk.Some? {
      ArchiveNamesRoundTrip(walk.value);
    }
  }

  // -------------------------------------------------------- put, compress_and_put

  /** An HTTP response; its status is carried but never inspected. */
  datatype Response = Response(status: int)

  /** `put(file_path, url)`: open the file, then send it. Any response,
      whatever its status, is a success. */
  function Put(fileOpens: bool, sent: Option<Response>): (r: Result<Response, TransferError>)
    ensures r.Ok? <==> fileOpens && sent.Some?
    ensures r.Ok? ==> r.value == sent.value
    ensures !fileOpens ==> r == Err(FileError)
  {
    if !fileOpens then Err(FileError)
    else if sent.None? then Err(HttpError)
    else Ok(sent.value)
  }

  const ArchiveFileName := "source.tar.xz"

  /** `compress_and_put(source_path, url)` with its temporary directory
      `tmpDir`. The archive is put only after `compress` succeeded; the
      temporary directory is removed on every path out. */
  function CompressAndPut(
    url: string,
    tmpDir: Path,
    createSucceeds: bool,
    walk: Option<seq<RelPath>>,
    archiveOpens: bool,
    sent: Option<Response>)
    : (out: (seq<Effect>, Result<(), TransferError>))
    requires walk.Some? ==> forall i :: 0 <= i < |walk.value| ==> IsRelPath(walk.value[i])
    ensures |out.0| >= 2 && out.0[0] == CreatedTempDir(tmpDir)
    ensures out.0[|out.0| - 1] == RemovedTempDir(tmpDir)
    ensures out.1.Ok? <==> createSucceeds && walk.Some? && archiveOpens && sent.Some?
    ensures forall i :: 0 <= i < |out.0| && out.0[i].Uploaded? ==>
              && out.0[i].path == JoinPath(tmpDir, ArchiveFileName)
              && out.0[i].url == url
              && exists j :: 0 <= j < i && out.0[j].WroteArchive? && out.0[j].path == out.0[i].path
    ensures Compress(createSucceeds, walk).Err? ==>
              out.0 == [CreatedTempDir(tmpDir), RemovedTempDir(tmpDir)]
    ensures out.1.Ok? ==>
              var archive := JoinPath(tmpDir, ArchiveFileName);
              out.0 == [CreatedTempDir(tmpDir), WroteArchive(archive, Compress(createSucceeds, walk).value),
                        Uploaded(archive, url), RemovedTempDir(tmpDir)]
    ensures Compress(createSucceeds, walk).Ok? && out.1.Err? ==>
              out.0 == [CreatedTempDir(tmpDir),
                        WroteArchive(JoinPath(tmpDir, ArchiveFileName), Compress(createSucceeds, walk).value),
                        RemovedTempDir(tmpDir)]
  {
    var archive := JoinPath(tmpDir, ArchiveFileName);
    var compressed := Compress(createSucceeds, walk);
    if compressed.Err? then ([CreatedTempDir(tmpDir), RemovedTempDir(tmpDir)], Err(compressed.error))
    else
      var made := [CreatedTempDir(tmpDir), WroteArchive(archive, compressed.value)];
      var put := Put(archiveOpens, sent);
      if put.Err? then
        var effects := made + [RemovedTempDir(tmpDir)];
        assert forall i :: 0 <= i < |effects| ==> !effects[i].Uploaded?;
        (effects, Err(put.error))
      else
        var effects := made + [Uploaded(archive, url), RemovedTempDir(tmpDir)];
        assert forall i :: 0 <= i < |effects| && effects[i].Uploaded? ==> i == 2;
        assert effects[1].WroteArchive? && effects[1].path == archive;
        (effects, Ok(()))
  }
}
