/** Exporting a bundle: files are written to a staging directory, the record is inserted in a
    transaction, the directory is renamed into place, the transaction commits.  An exception may
    surface at any of these points, and one that is no Exception (an interrupt of the process)
    passes the clean-up by (ai_drama_runtime/services.py). */
module BundleExport {
  import opened Wrappers
  import opened JsonText
  import opened CanonicalJson
  import opened Bundle

  datatype Path = Path(parent: string, name: string)

  datatype File = CanonicalFile | MarkdownFile | ProvenanceFile | ManifestFile

  type Directory = map<File, Content>

  datatype ExportRecord = ExportRecord(
    revisionId: string, contentHash: string, destination: Path, provenanceObject: string,
    kind: string, freshness: string, diagnosticOnly: bool, bundleHash: string)

  /** What one export is asked for; token and exportId are fresh uuids, time is the clock. */
  datatype Request = Request(
    id: string, destination: Path, kind: string, freshness: string, diagnosticOnly: bool, bundleHash: string,
    token: string, exportId: string, time: string)

  datatype ExportError = DestinationExists | IntegrityLost | Blocked | Unhandled | Interrupted

  datatype Point =
    | MakeParent | MakeStaging | BuildProvenance
    | ReadSource(f: File) | WriteFile(f: File) | ReadBack(f: File)
    | StoreProvenance | Begin | InsertRecord | Rename | Commit

  /** The points that raise, those of them whose exception is not an Exception, and what the disk holds after
      a write that does not raise. */
  datatype Faults = Faults(raises: set<Point>, interrupts: set<Point>, disk: (File, Content) -> Content)

  /** What a point inside the try block that raises makes of the call. */
  function Fault(faults: Faults, p: Point): ExportError {
    if p in faults.interrupts then Interrupted else Blocked
  }

  /** ".<name>.<uuid>.staging" beside the destination: never the destination itself. */
  function Staging(q: Request): (p: Path)
    ensures p != q.destination
  {
    var name := "." + q.destination.name + "." + q.token + ".staging";
    assert |name| > |q.destination.name|;
    Path(q.destination.parent, name)
  }

  function Provenance(q: Request, rev: Revision): Json {
    Obj([Field("schema_version", Str("export-provenance-v1")), Field("export_id", Str(q.exportId)),
         Field("export_kind", Str(q.kind)), Field("revision_id", Str(q.id)),
         Field("canonical_content_hash", Str(rev.contentHash)), Field("bundle_manifest_hash", Str(q.bundleHash)),
         Field("bundle_status", Str("verified")), Field("freshness_status", Str(q.freshness)),
         Field("diagnostic_only", Bool(q.diagnosticOnly)), Field("not_an_execution_package", Bool(true)),
         Field("execution_ready", Bool(false)), Field("requested_destination", Str(q.destination.parent + "/" + q.destination.name)),
         Field("export_time", Str(q.time)), Field("error_code", Str(""))])
  }

  function ProvenanceBytes(q: Request, rev: Revision): Content {
    Utf8(Dumps(Provenance(q, rev)))
  }

  function RecordOf(env: Env, q: Request, rev: Revision): ExportRecord {
    ExportRecord(q.id, rev.contentHash, q.destination, env.sha(ProvenanceBytes(q, rev)),
                 q.kind, q.freshness, q.diagnosticOnly, q.bundleHash)
  }

  /** The stored bytes behind each exported file, when they can be read. */
  function Source(env: Env, objects: Objects, q: Request, rev: Revision, f: File): Option<Content>
    requires rev.outputs.Keys == {RENDERED, MANIFEST}
  {
    match f
    case CanonicalFile => Read(env, objects, rev.contentObject)
    case MarkdownFile => Read(env, objects, rev.outputs[RENDERED].objectId)
    case ManifestFile => Read(env, objects, rev.outputs[MANIFEST].objectId)
    case ProvenanceFile => Some(ProvenanceBytes(q, rev))
  }

  predicate Readable(env: Env, objects: Objects, q: Request, rev: Revision, faults: Faults, f: File)
    requires rev.outputs.Keys == {RENDERED, MANIFEST}
  {
    ReadSource(f) !in faults.raises && Source(env, objects, q, rev, f).Some?
  }

  /** The file can be read, written and read back unchanged. */
  predicate Survives(env: Env, objects: Objects, q: Request, rev: Revision, faults: Faults, f: File)
    requires rev.outputs.Keys == {RENDERED, MANIFEST}
  {
    && Readable(env, objects, q, rev, faults, f)
    && WriteFile(f) !in faults.raises && ReadBack(f) !in faults.raises
    && faults.disk(f, Source(env, objects, q, rev, f).value) == Source(env, objects, q, rev, f).value
  }

  predicate FilesSurvive(env: Env, objects: Objects, q: Request, rev: Revision, faults: Faults)
    requires rev.outputs.Keys == {RENDERED, MANIFEST}
  {
    && Survives(env, objects, q, rev, faults, CanonicalFile) && Survives(env, objects, q, rev, faults, MarkdownFile)
    && Survives(env, objects, q, rev, faults, ProvenanceFile) && Survives(env, objects, q, rev, faults, ManifestFile)
  }

  predicate Sourced(env: Env, objects: Objects, q: Request, rev: Revision)
    requires rev.outputs.Keys == {RENDERED, MANIFEST}
  {
    && Source(env, objects, q, rev, CanonicalFile).Some? && Source(env, objects, q, rev, MarkdownFile).Some?
    && Source(env, objects, q, rev, ManifestFile).Some?
  }

  function ExportedFiles(env: Env, objects: Objects, q: Request, rev: Revision): Directory
    requires rev.outputs.Keys == {RENDERED, MANIFEST}
    requires Sourced(env, objects, q, rev)
  {
    map[CanonicalFile := Source(env, objects, q, rev, CanonicalFile).value,
        MarkdownFile := Source(env, objects, q, rev, MarkdownFile).value,
        ProvenanceFile := ProvenanceBytes(q, rev),
        ManifestFile := Source(env, objects, q, rev, ManifestFile).value]
  }

  predicate SomeInterrupt(faults: Faults) {
    !(faults.interrupts !! faults.raises)
  }

  /** Nothing goes wrong with the files but interrupts. */
  predicate OnlyInterrupts(env: Env, objects: Objects, q: Request, rev: Revision, faults: Faults)
    requires rev.outputs.Keys == {RENDERED, MANIFEST}
  {
    faults.raises <= faults.interrupts && FilesSurvive(env, objects, q, rev, faults.(raises := {}))
  }

  /** Everything in the transaction up to the commit. */
  predicate Publishes(faults: Faults) {
    StoreProvenance !in faults.raises && Begin !in faults.raises && InsertRecord !in faults.raises && Rename !in faults.raises
  }

  /** Interrupted is raised only by an interrupt, and by every failure when nothing else goes wrong. */
  predicate Explained(env: Env, objects: Objects, q: Request, rev: Revision, faults: Faults, raised: Option<ExportError>)
    requires rev.outputs.Keys == {RENDERED, MANIFEST}
  {
    && (raised == Some(Interrupted) ==> SomeInterrupt(faults))
    && (raised.Some? && OnlyInterrupts(env, objects, q, rev, faults) ==> raised == Some(Interrupted))
  }

  predicate ReadsBack(sources: Directory, faults: Faults, f: File)
    requires f in sources
  {
    ReadBack(f) !in faults.raises && faults.disk(f, sources[f]) == sources[f]
  }

  /** The first file that does not read back unchanged differs rather than raises. */
  predicate Differs(sources: Directory, faults: Faults)
    requires sources.Keys == {CanonicalFile, MarkdownFile, ProvenanceFile, ManifestFile}
  {
    if !ReadsBack(sources, faults, CanonicalFile) then ReadBack(CanonicalFile) !in faults.raises
    else if !ReadsBack(sources, faults, MarkdownFile) then ReadBack(MarkdownFile) !in faults.raises
    else if !ReadsBack(sources, faults, ProvenanceFile) then ReadBack(ProvenanceFile) !in faults.raises
    else !ReadsBack(sources, faults, ManifestFile) && ReadBack(ManifestFile) !in faults.raises
  }

  predicate AllReadable(env: Env, objects: Objects, q: Request, rev: Revision, faults: Faults)
    requires rev.outputs.Keys == {RENDERED, MANIFEST}
  {
    && Readable(env, objects, q, rev, faults, CanonicalFile) && Readable(env, objects, q, rev, faults, MarkdownFile)
    && Readable(env, objects, q, rev, faults, ProvenanceFile) && Readable(env, objects, q, rev, faults, ManifestFile)
  }

  predicate AllWrite(faults: Faults) {
    && WriteFile(CanonicalFile) !in faults.raises && WriteFile(MarkdownFile) !in faults.raises
    && WriteFile(ProvenanceFile) !in faults.raises && WriteFile(ManifestFile) !in faults.raises
  }

  /** Everything is read and written, and then a file differs from what was meant. */
  predicate LosesIntegrity(env: Env, objects: Objects, q: Request, rev: Revision, faults: Faults)
    requires rev.outputs.Keys == {RENDERED, MANIFEST}
  {
    AllReadable(env, objects, q, rev, faults) && AllWrite(faults) && Differs(ExportedFiles(env, objects, q, rev), faults)
  }

  /** A new entry replaced, renamed or removed. */
  lemma StagedEntries<K, V>(m: map<K, V>, staging: K, final: K, x: V, y: V)
    requires staging !in m && final !in m && staging != final
    ensures m[staging := x][staging := y] == m[staging := y] && (m[staging := x] - {staging})[final := y] == m[final := y]
    ensures m[staging := y] - {staging, final} == m && m[final := y] - {staging, final} == m
  {
  }

  class Exporter {
    const env: Env
    var objects: Objects
    var exports: map<string, ExportRecord>
    /** The export rows as the open transaction sees them; the committed ones are in exports. */
    var open: Option<map<string, ExportRecord>>
    var dirs: map<Path, Directory>

    constructor (env: Env, objects: Objects)
      ensures this.env == env && this.objects == objects && exports == map[] && open == None && dirs == map[]
    {
      this.env, this.objects := env, objects;
      exports, open, dirs := map[], None, map[];
    }

    /** The call reaches its try block. */
    predicate EntersTry(q: Request, faults: Faults)
      reads this
    {
      && q.destination !in dirs && Staging(q) !in dirs
      && MakeParent !in faults.raises && MakeStaging !in faults.raises && BuildProvenance !in faults.raises
    }

    /** Nothing raises before the commit and nothing is in the way. */
    predicate ReachesCommit(q: Request, rev: Revision, faults: Faults)
      requires rev.outputs.Keys == {RENDERED, MANIFEST}
      reads this
    {
      EntersTry(q, faults) && q.exportId !in exports && open.None? && Publishes(faults) && FilesSurvive(env, objects, q, rev, faults)
    }

    /** An exception between creating the staging directory and entering the try block: the code
        builds the provenance there, outside the clean-up. */
    predicate LeavesStaging(q: Request, faults: Faults)
      reads this
    {
      && q.destination !in dirs && Staging(q) !in dirs && MakeParent !in faults.raises && MakeStaging !in faults.raises
      && BuildProvenance in faults.raises
    }

    /** What an interrupt inside the try block leaves: the destination with its files and a record that is not
        committed if the commit was reached, and otherwise the staging directory. */
    method AtomicSuccessfulBundleExport(q: Request, rev: Revision, faults: Faults) returns (r: Result<ExportRecord, ExportError>)
      requires rev.outputs.Keys == {RENDERED, MANIFEST}
      modifies this`objects, this`exports, this`open, this`dirs
      ensures r.Ok? <==> old(ReachesCommit(q, rev, faults)) && Commit !in faults.raises
      ensures r.Ok? ==>
        && r.value == RecordOf(env, q, rev)
        && exports == old(exports)[q.exportId := r.value] && open == None
        && dirs == old(dirs)[q.destination := ExportedFiles(env, old(objects), q, rev)]
      ensures r.Err? ==> exports == old(exports)
      ensures r.Err? && r.error != Interrupted ==>
        && open == (if old(EntersTry(q, faults)) then None else old(open))
        && dirs == if old(LeavesStaging(q, faults)) then old(dirs)[Staging(q) := map[]] else old(dirs)
      ensures r == Err(Interrupted) ==>
        if old(ReachesCommit(q, rev, faults)) then
          && open == Some(old(exports)[q.exportId := RecordOf(env, q, rev)])
          && dirs == old(dirs)[q.destination := ExportedFiles(env, old(objects), q, rev)]
        else
          && q.destination !in dirs && Staging(q) in dirs && dirs == old(dirs)[Staging(q) := dirs[Staging(q)]]
      ensures r == Err(Interrupted) ==> old(EntersTry(q, faults)) && SomeInterrupt(faults)
      ensures old(EntersTry(q, faults)) && old(open).None? && q.exportId !in old(exports)
              && OnlyInterrupts(env, old(objects), q, rev, faults)
        ==> r.Ok? || r.error == Interrupted
      ensures r == Err(DestinationExists) <==> q.destination in old(dirs)
      ensures r == Err(Unhandled) <==> q.destination !in old(dirs) && !old(EntersTry(q, faults))
      ensures r == Err(IntegrityLost) <==> old(EntersTry(q, faults)) && LosesIntegrity(env, old(objects), q, rev, faults)
      ensures objects == if old(EntersTry(q, faults)) && FilesSurvive(env, old(objects), q, rev, faults) && StoreProvenance !in faults.raises
                         then Written(env, old(objects), ProvenanceBytes(q, rev)) else old(objects)
    {
      var staging := Staging(q);
      if q.destination in dirs {
        return Err(DestinationExists);
      }
      if MakeParent in faults.raises || MakeStaging in faults.raises || staging in dirs {
        return Err(Unhandled);
      }
      ghost var untouched := dirs;
      dirs := dirs[staging := map[]];
      if BuildProvenance in faults.raises {
        return Err(Unhandled);
      }
      var raised, finalExists := TryExport(q, rev, staging, faults);
      ghost var files := if finalExists then dirs[q.destination] else dirs[staging];
      StagedEntries(untouched, staging, q.destination, map[], files);
      if raised.None? {
        return Ok(exports[q.exportId]);
      }
      if raised.value == Interrupted {
        return Err(Interrupted);
      }
      CleanUp(staging, q.destination, finalExists);
      return Err(raised.value);
    }

    /** The except branch: roll back, remove what is left of the staging directory and of the destination. */
    method CleanUp(staging: Path, destination: Path, finalExists: bool)
      requires !finalExists ==> destination !in dirs
      modifies this`open, this`dirs
      ensures open == None && dirs == old(dirs) - {staging, destination}
    {
      open := None;
      if staging in dirs {
        dirs := dirs - {staging};
      }
      if finalExists && destination in dirs {
        dirs := dirs - {destination};
      }
    }

    /** The try block: it stops at the first exception. */
    method TryExport(q: Request, rev: Revision, staging: Path, faults: Faults)
      returns (raised: Option<ExportError>, finalExists: bool)
      requires rev.outputs.Keys == {RENDERED, MANIFEST}
      requires staging in dirs && q.destination !in dirs && staging != q.destination && dirs[staging] == map[]
      modifies this`objects, this`exports, this`open, this`dirs
      ensures finalExists <==>
        FilesSurvive(env, old(objects), q, rev, faults) && q.exportId !in old(exports) && old(open).None? && Publishes(faults)
      ensures raised.None? <==> finalExists && Commit !in faults.raises
      ensures exports == if raised.None? then old(exports)[q.exportId := RecordOf(env, q, rev)] else old(exports)
      ensures finalExists ==>
        && open == (if raised.None? then None else Some(old(exports)[q.exportId := RecordOf(env, q, rev)]))
        && dirs == (old(dirs) - {staging})[q.destination := ExportedFiles(env, old(objects), q, rev)]
      ensures !finalExists ==> staging in dirs && dirs == old(dirs)[staging := dirs[staging]]
      ensures old(open).None? && q.exportId !in old(exports) ==> Explained(env, old(objects), q, rev, faults, raised)
      ensures raised == Some(Interrupted) ==> SomeInterrupt(faults)
      ensures raised != Some(DestinationExists) && raised != Some(Unhandled)
      ensures raised == Some(IntegrityLost) <==> LosesIntegrity(env, old(objects), q, rev, faults)
      ensures objects == if FilesSurvive(env, old(objects), q, rev, faults) && StoreProvenance !in faults.raises
                         then Written(env, old(objects), ProvenanceBytes(q, rev)) else old(objects)
    {
      raised := WriteBundleExportFiles(q, rev, staging, faults);
      if raised.Some? {
        return raised, false;
      }
      raised, finalExists := Publish(q, rev, staging, faults);
    }

    /** Store the provenance, insert the record, rename the directory, commit. */
    method Publish(q: Request, rev: Revision, staging: Path, faults: Faults)
      returns (raised: Option<ExportError>, finalExists: bool)
      requires staging in dirs && q.destination !in dirs && staging != q.destination
      modifies this`objects, this`exports, this`open, this`dirs
      ensures finalExists <==> q.exportId !in old(exports) && old(open).None? && Publishes(faults)
      ensures raised.None? <==> finalExists && Commit !in faults.raises
      ensures exports == if raised.None? then old(exports)[q.exportId := RecordOf(env, q, rev)] else old(exports)
      ensures finalExists ==>
        && open == (if raised.None? then None else Some(old(exports)[q.exportId := RecordOf(env, q, rev)]))
        && dirs == (old(dirs) - {staging})[q.destination := old(dirs)[staging]]
      ensures !finalExists ==> dirs == old(dirs)
      ensures raised == Some(Interrupted) ==> SomeInterrupt(faults)
      ensures raised.Some? && q.exportId !in old(exports) && old(open).None? && faults.raises <= faults.interrupts ==>
        raised == Some(Interrupted)
      ensures raised.Some? ==> raised.value in {Interrupted, Blocked}
      ensures objects == if StoreProvenance in faults.raises then old(objects) else Written(env, old(objects), ProvenanceBytes(q, rev))
    {
      finalExists := false;
      if StoreProvenance in faults.raises {
        return Some(Fault(faults, StoreProvenance)), false;
      }
      objects := Written(env, objects, ProvenanceBytes(q, rev));
      if Begin in faults.raises {
        return Some(Fault(faults, Begin)), false;
      }
      if open.Some? {
        return Some(Blocked), false;
      }
      open := Some(exports);
      if InsertRecord in faults.raises {
        return Some(Fault(faults, InsertRecord)), false;
      }
      if q.exportId in exports {
        return Some(Blocked), false;
      }
      open := Some(exports[q.exportId := RecordOf(env, q, rev)]);
      if Rename in faults.raises {
        return Some(Fault(faults, Rename)), false;
      }
      var files := dirs[staging];
      dirs := (dirs - {staging})[q.destination := files];
      finalExists := true;
      if Commit in faults.raises {
        return Some(Fault(faults, Commit)), true;
      }
      exports := open.value;
      open := None;
      return None, true;
    }

    /** Read the stored bytes, write the four files, compare what the disk holds with what was meant. */
    method WriteBundleExportFiles(q: Request, rev: Revision, staging: Path, faults: Faults) returns (raised: Option<ExportError>)
      requires rev.outputs.Keys == {RENDERED, MANIFEST} && staging in dirs && dirs[staging] == map[]
      modifies this`dirs
      ensures staging in dirs && dirs == old(dirs)[staging := dirs[staging]]
      ensures raised.None? <==> FilesSurvive(env, objects, q, rev, faults)
      ensures raised.None? ==> dirs[staging] == ExportedFiles(env, objects, q, rev)
      ensures Explained(env, objects, q, rev, faults, raised)
      ensures raised.Some? ==> raised.value in {Interrupted, Blocked, IntegrityLost}
      ensures raised == Some(IntegrityLost) <==> LosesIntegrity(env, objects, q, rev, faults)
    {
      var sources := map[];
      sources, raised := ReadSources(q, rev, faults);
      if raised.None? {
        raised := WriteAll(staging, sources, faults);
        if raised.None? {
          raised := CompareAll(staging, sources, faults);
        }
      }
    }

    method ReadSources(q: Request, rev: Revision, faults: Faults) returns (sources: Directory, raised: Option<ExportError>)
      requires rev.outputs.Keys == {RENDERED, MANIFEST}
      ensures raised.None? <==> AllReadable(env, objects, q, rev, faults)
      ensures raised.None? ==> sources == ExportedFiles(env, objects, q, rev)
      ensures Explained(env, objects, q, rev, faults, raised)
      ensures raised.Some? ==> raised.value in {Interrupted, Blocked}
    {
      var canonical := Source(env, objects, q, rev, CanonicalFile);
      if ReadSource(CanonicalFile) in faults.raises {
        return map[], Some(Fault(faults, ReadSource(CanonicalFile)));
      }
      if canonical.None? {
        return map[], Some(Blocked);
      }
      var markdown := Source(env, objects, q, rev, MarkdownFile);
      if ReadSource(MarkdownFile) in faults.raises {
        return map[], Some(Fault(faults, ReadSource(MarkdownFile)));
      }
      if markdown.None? {
        return map[], Some(Blocked);
      }
      if ReadSource(ProvenanceFile) in faults.raises {
        return map[], Some(Fault(faults, ReadSource(ProvenanceFile)));
      }
      var manifest := Source(env, objects, q, rev, ManifestFile);
      if ReadSource(ManifestFile) in faults.raises {
        return map[], Some(Fault(faults, ReadSource(ManifestFile)));
      }
      if manifest.None? {
        return map[], Some(Blocked);
      }
      sources := map[CanonicalFile := canonical.value, MarkdownFile := markdown.value,
                     ProvenanceFile := ProvenanceBytes(q, rev), ManifestFile := manifest.value];
      return sources, None;
    }

    method WriteAll(staging: Path, sources: Directory, faults: Faults) returns (raised: Option<ExportError>)
      requires staging in dirs && dirs[staging] == map[] && sources.Keys == {CanonicalFile, MarkdownFile, ProvenanceFile, ManifestFile}
      modifies this`dirs
      ensures staging in dirs && dirs == old(dirs)[staging := dirs[staging]]
      ensures raised.None? <==> AllWrite(faults)
      ensures raised.Some? ==> raised.value in {Interrupted, Blocked}
      ensures raised.None? ==> dirs[staging] == OnDisk(sources, faults)
      ensures raised == Some(Interrupted) ==> SomeInterrupt(faults)
      ensures raised.Some? && faults.raises <= faults.interrupts ==> raised == Some(Interrupted)
    {
      raised := WriteOne(staging, CanonicalFile, sources[CanonicalFile], faults);
      if raised.Some? {
        return;
      }
      raised := WriteOne(staging, MarkdownFile, sources[MarkdownFile], faults);
      if raised.Some? {
        return;
      }
      raised := WriteOne(staging, ProvenanceFile, sources[ProvenanceFile], faults);
      if raised.Some? {
        return;
      }
      raised := WriteOne(staging, ManifestFile, sources[ManifestFile], faults);
      AllWritten(sources, faults);
    }

    /** A write that raises may leave part of the file behind. */
    method WriteOne(staging: Path, f: File, c: Content, faults: Faults) returns (raised: Option<ExportError>)
      requires staging in dirs
      modifies this`dirs
      ensures dirs == old(dirs)[staging := old(dirs)[staging][f := faults.disk(f, c)]]
      ensures raised == if WriteFile(f) in faults.raises then Some(Fault(faults, WriteFile(f))) else None
    {
      dirs := dirs[staging := dirs[staging][f := faults.disk(f, c)]];
      return if WriteFile(f) in faults.raises then Some(Fault(faults, WriteFile(f))) else None;
    }

    method CompareAll(staging: Path, sources: Directory, faults: Faults) returns (raised: Option<ExportError>)
      requires sources.Keys == {CanonicalFile, MarkdownFile, ProvenanceFile, ManifestFile}
      requires staging in dirs && dirs[staging] == OnDisk(sources, faults)
      ensures raised.None? <==>
        && {ReadBack(CanonicalFile), ReadBack(MarkdownFile), ReadBack(ProvenanceFile), ReadBack(ManifestFile)} !! faults.raises
        && dirs[staging] == sources
      ensures raised.Some? ==> raised.value in {Interrupted, Blocked, IntegrityLost}
      ensures raised == Some(IntegrityLost) <==> Differs(sources, faults)
      ensures raised == Some(Interrupted) ==> SomeInterrupt(faults)
      ensures raised.Some? && faults.raises <= faults.interrupts && OnDisk(sources, faults) == sources ==> raised == Some(Interrupted)
    {
      var written := dirs[staging];
      if ReadBack(CanonicalFile) in faults.raises {
        return Some(Fault(faults, ReadBack(CanonicalFile)));
      }
      if written[CanonicalFile] != sources[CanonicalFile] {
        return Some(IntegrityLost);
      }
      if ReadBack(MarkdownFile) in faults.raises {
        return Some(Fault(faults, ReadBack(MarkdownFile)));
      }
      if written[MarkdownFile] != sources[MarkdownFile] {
        return Some(IntegrityLost);
      }
      if ReadBack(ProvenanceFile) in faults.raises {
        return Some(Fault(faults, ReadBack(ProvenanceFile)));
      }
      if written[ProvenanceFile] != sources[ProvenanceFile] {
        return Some(IntegrityLost);
      }
      if ReadBack(ManifestFile) in faults.raises {
        return Some(Fault(faults, ReadBack(ManifestFile)));
      }
      if written[ManifestFile] != sources[ManifestFile] {
        return Some(IntegrityLost);
      }
      return None;
    }
  }

  /** What the disk holds once the four files have been written. */
  function OnDisk(sources: Directory, faults: Faults): Directory
    requires sources.Keys == {CanonicalFile, MarkdownFile, ProvenanceFile, ManifestFile}
  {
    map[CanonicalFile := faults.disk(CanonicalFile, sources[CanonicalFile]),
        MarkdownFile := faults.disk(MarkdownFile, sources[MarkdownFile]),
        ProvenanceFile := faults.disk(ProvenanceFile, sources[ProvenanceFile]),
        ManifestFile := faults.disk(ManifestFile, sources[ManifestFile])]
  }

  /** Writing the files one after the other fills an empty directory. */
  lemma AllWritten(sources: Directory, faults: Faults)
    requires sources.Keys == {CanonicalFile, MarkdownFile, ProvenanceFile, ManifestFile}
    ensures map[][CanonicalFile := faults.disk(CanonicalFile, sources[CanonicalFile])]
                 [MarkdownFile := faults.disk(MarkdownFile, sources[MarkdownFile])]
                 [ProvenanceFile := faults.disk(ProvenanceFile, sources[ProvenanceFile])]
                 [ManifestFile := faults.disk(ManifestFile, sources[ManifestFile])] == OnDisk(sources, faults)
  {
  }

  /** The leaking case occurs: with nothing stored and nothing in the way, an export whose provenance cannot
      be built raises and leaves an empty staging directory. */
  method ProvenanceFailureLeavesStaging(env: Env, q: Request, rev: Revision) returns (e: Exporter, r: Result<ExportRecord, ExportError>)
    requires rev.outputs.Keys == {RENDERED, MANIFEST}
    ensures fresh(e) && r.Err? && e.exports == map[] && e.dirs == map[Staging(q) := map[]]
  {
    e := new Exporter(env, map[]);
    r := e.AtomicSuccessfulBundleExport(q, rev, Faults({BuildProvenance}, {}, (f, c) => c));
  }

  function AtCommit(): Faults {
    Faults({Commit}, {Commit}, (f, c) => c)
  }

  lemma FilesSurviveToCommit(env: Env, objects: Objects, q: Request, rev: Revision)
    requires rev.outputs.Keys == {RENDERED, MANIFEST} && Sourced(env, objects, q, rev)
    ensures FilesSurvive(env, objects, q, rev, AtCommit())
  {
  }

  /** The other leaking case occurs: an interrupt at the commit leaves the destination with its four files
      and no committed record. */
  method InterruptedCommitLeavesDestination(env: Env, objects: Objects, q: Request, rev: Revision)
    returns (e: Exporter, r: Result<ExportRecord, ExportError>)
    requires rev.outputs.Keys == {RENDERED, MANIFEST} && Sourced(env, objects, q, rev)
    ensures fresh(e) && r == Err(Interrupted) && e.exports == map[] && e.open.Some?
    ensures e.dirs == map[q.destination := ExportedFiles(env, objects, q, rev)]
  {
    e := new Exporter(env, objects);
    FilesSurviveToCommit(env, objects, q, rev);
    assert e.ReachesCommit(q, rev, AtCommit());
    r := e.AtomicSuccessfulBundleExport(q, rev, AtCommit());
  }

  lemma BundledOutputs(env: Env, s: State, id: string)
    requires Bundled(env, s, id)
    ensures var rev := s.revisions[id];
            var text := Rendering(env, s.objects, rev);
            && text.Some? && rev.outputs.Keys == {RENDERED, MANIFEST}
            && Read(env, s.objects, rev.outputs[RENDERED].objectId) == Some(Utf8(text.value))
            && Read(env, s.objects, rev.outputs[MANIFEST].objectId) == Some(Utf8(ManifestText(env, id, rev.contentHash, text.value)))
  {
  }

  lemma RenderedContent(env: Env, objects: Objects, rev: Revision)
    requires Rendering(env, objects, rev).Some?
    ensures var content := Read(env, objects, rev.contentObject);
            && content.Some? && content.value.Utf8? && ParseText(content.value.text).Done?
            && env.render(ParseText(content.value.text).value) == Rendering(env, objects, rev)
  {
  }

  /** What a successful export of a checked bundle puts in the destination: the canonical text, its
      rendering and the manifest built from both. */
  lemma ExportedFilesAreTheBundle(env: Env, s: State, q: Request)
    requires Check(env, s, q.id).Ok?
    ensures var rev := s.revisions[q.id];
            && rev.outputs.Keys == {RENDERED, MANIFEST}
            && Sourced(env, s.objects, q, rev)
            && var files := ExportedFiles(env, s.objects, q, rev);
               && files[CanonicalFile].Utf8? && ParseText(files[CanonicalFile].text).Done?
               && var text := env.render(ParseText(files[CanonicalFile].text).value);
                  && text.Some? && files[MarkdownFile] == Utf8(text.value)
                  && files[ManifestFile] == Utf8(ManifestText(env, q.id, rev.contentHash, text.value))
  {
    CheckPassesIff(env, s, q.id);
    BundledOutputs(env, s, q.id);
    RenderedContent(env, s.objects, s.revisions[q.id]);
  }
}
