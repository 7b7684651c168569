/** Garbage collection of the object store against a verified backup
    (ai_drama_web/operations/object_store_maintenance.py and backup_restore.py). */
module GarbageCollection {
  import opened Wrappers
  import opened Hashing
  import opened ObjectInventory

  // ---------- backups ----------

  /** Payload paths: object files by object id, every other file by name. */
  datatype Path = ObjectFile(id: string) | OtherFile(name: string)

  datatype FileRecord = FileRecord(path: Path, size: int, sha256: string, mode: int)

  datatype Manifest = Manifest(
    schemaVersion: string,
    status: string,
    sourceRoot: string,
    inventoryHash: string,
    files: seq<FileRecord>)

  datatype PayloadFile = PayloadFile(content: StoredObject, mode: int)

  /** The payload directory: its files, what its database references, and whether the
      credential rows of that database check out. */
  datatype Payload = Payload(
    objects: map<string, PayloadFile>,
    others: map<string, PayloadFile>,
    references: References,
    credentialsReady: bool)

  datatype BackupError =
    | ManifestInvalid | FileSetMismatch | HashMismatch | ModeMismatch
    | ReferenceMissing | ObjectCorrupt | CredentialNotReady | InventoryMismatch

  function Paths(p: Payload): set<Path> {
    (set id | id in p.objects :: ObjectFile(id)) + (set name | name in p.others :: OtherFile(name))
  }

  function FileAt(p: Payload, path: Path): PayloadFile
    requires path in Paths(p)
  {
    match path
    case ObjectFile(id) => p.objects[id]
    case OtherFile(name) => p.others[name]
  }

  function ObjectsIn(p: Payload): Objects {
    map id | id in p.objects :: p.objects[id].content
  }

  function RecordFault(sha: Sha256, p: Payload, item: FileRecord): (fault: Option<BackupError>)
    requires item.path in Paths(p)
    ensures fault in {None, Some(HashMismatch), Some(ModeMismatch)}
  {
    var file := FileAt(p, item.path);
    if |file.content.bytes| != item.size || sha(file.content.bytes) != item.sha256 then Some(HashMismatch)
    else if file.mode != item.mode then Some(ModeMismatch)
    else None
  }

  predicate DistinctPaths(files: seq<FileRecord>) {
    forall i, j :: 0 <= i < j < |files| ==> files[i].path != files[j].path
  }

  function RecordedPaths(files: seq<FileRecord>): set<Path> {
    set i | 0 <= i < |files| :: files[i].path
  }

  predicate ManifestLoads(m: Manifest) {
    m.schemaVersion == "m6-backup-v1" && m.status == "verified"
  }

  /** No missing reference, no corrupt referenced object, credentials in order. */
  predicate PayloadConsistent(tools: Tools, p: Payload) {
    var report := Inventory(tools, ObjectsIn(p), p.references, 0);
    && report.missing == {}
    && (forall id :: id in report.entries ==> !(report.entries[id].corrupt && report.entries[id].referencedBy != {}))
    && p.credentialsReady
  }

  /** Every record is of a payload file with its size, hash and mode. */
  predicate FilesMatch(sha: Sha256, files: seq<FileRecord>, p: Payload) {
    forall i :: 0 <= i < |files| ==> files[i].path in Paths(p) && RecordFault(sha, p, files[i]) == None
  }

  /** What a verified backup amounts to. */
  predicate BackupVerified(tools: Tools, m: Manifest, p: Payload) {
    && ManifestLoads(m)
    && m.files != [] && DistinctPaths(m.files)
    && RecordedPaths(m.files) == Paths(p)
    && FilesMatch(tools.sha, m.files, p)
    && PayloadConsistent(tools, p)
    && Inventory(tools, ObjectsIn(p), p.references, 0).inventoryHash == m.inventoryHash
  }

  // ---------- the same, from the tables ----------

  /** The payload file a record is about. */
  predicate StoredAt(p: Payload, path: Path, file: PayloadFile) {
    match path
    case ObjectFile(id) => id in p.objects && p.objects[id] == file
    case OtherFile(name) => name in p.others && p.others[name] == file
  }

  predicate SameContent(sha: Sha256, item: FileRecord, file: PayloadFile) {
    |file.content.bytes| == item.size && sha(file.content.bytes) == item.sha256
  }

  ghost predicate ContentDiffers(sha: Sha256, p: Payload, item: FileRecord) {
    exists file :: StoredAt(p, item.path, file) && !SameContent(sha, item, file)
  }

  ghost predicate OnlyModeDiffers(sha: Sha256, p: Payload, item: FileRecord) {
    exists file :: StoredAt(p, item.path, file) && SameContent(sha, item, file) && file.mode != item.mode
  }

  ghost predicate RecordInOrder(sha: Sha256, p: Payload, item: FileRecord) {
    exists file :: StoredAt(p, item.path, file) && SameContent(sha, item, file) && file.mode == item.mode
  }

  /** What one record is reported for. */
  lemma RecordFaultByTables(sha: Sha256, p: Payload, item: FileRecord)
    requires item.path in Paths(p)
    ensures RecordFault(sha, p, item) == None <==> RecordInOrder(sha, p, item)
    ensures RecordFault(sha, p, item) == Some(HashMismatch) <==> ContentDiffers(sha, p, item)
    ensures RecordFault(sha, p, item) == Some(ModeMismatch) <==> OnlyModeDiffers(sha, p, item)
  {
    assert StoredAt(p, item.path, FileAt(p, item.path));
  }

  /** Record i is the first one that is not in order. */
  ghost predicate FirstBad(sha: Sha256, files: seq<FileRecord>, p: Payload, i: nat) {
    && i < |files| && !RecordInOrder(sha, p, files[i])
    && forall j :: 0 <= j < i ==> RecordInOrder(sha, p, files[j])
  }

  ghost predicate ReferenceLost(p: Payload) {
    exists id :: id in p.references && id !in p.objects
  }

  ghost predicate ReferencedCorrupt(sha: Sha256, p: Payload) {
    exists id :: id in p.objects && id in p.references && p.references[id] != {} && sha(p.objects[id].content.bytes) != id
  }

  ghost predicate Recorded(files: seq<FileRecord>, path: Path) {
    exists i :: 0 <= i < |files| && files[i].path == path
  }

  /** Every payload file has a record, and every record a payload file. */
  ghost predicate SameFiles(files: seq<FileRecord>, p: Payload) {
    && (forall id :: id in p.objects ==> Recorded(files, ObjectFile(id)))
    && (forall name :: name in p.others ==> Recorded(files, OtherFile(name)))
    && forall i :: 0 <= i < |files| ==>
         match files[i].path
         case ObjectFile(id) => id in p.objects
         case OtherFile(name) => name in p.others
  }

  lemma SameFilesIff(files: seq<FileRecord>, p: Payload)
    ensures RecordedPaths(files) == Paths(p) <==> SameFiles(files, p)
  {
    if SameFiles(files, p) {
      forall path ensures path in RecordedPaths(files) <==> path in Paths(p) {
        if path in Paths(p) { assert Recorded(files, path); }
      }
    }
    if RecordedPaths(files) == Paths(p) {
      forall id | id in p.objects ensures Recorded(files, ObjectFile(id)) {
        assert ObjectFile(id) in RecordedPaths(files);
      }
      forall name | name in p.others ensures Recorded(files, OtherFile(name)) {
        assert OtherFile(name) in RecordedPaths(files);
      }
      forall i | 0 <= i < |files| ensures files[i].path in Paths(p) {
        assert files[i].path in RecordedPaths(files);
      }
    }
  }

  lemma PayloadConsistentByTables(tools: Tools, p: Payload)
    ensures PayloadConsistent(tools, p) <==> !ReferenceLost(p) && !ReferencedCorrupt(tools.sha, p) && p.credentialsReady
  {
    var report := Inventory(tools, ObjectsIn(p), p.references, 0);
    forall id ensures id in report.missing <==> id in p.references && id !in p.objects {
      InventoryByTables(tools, ObjectsIn(p), p.references, 0, id);
    }
    if ReferencedCorrupt(tools.sha, p) {
      var id :| id in p.objects && id in p.references && p.references[id] != {} && tools.sha(p.objects[id].content.bytes) != id;
      assert report.entries[id].corrupt;
    }
  }

  /** The columns of one payload object that the inventory hash covers. */
  function HashedColumns(sha: Sha256, references: References, id: string, o: StoredObject): HashedEntry {
    HashedEntry(|o.bytes|, o.modifiedNs, sha(o.bytes), if id in references then references[id] else {}, sha(o.bytes) != id)
  }

  function PayloadListing(tools: Tools, p: Payload): Listing {
    map id | id in p.objects :: HashedColumns(tools.sha, p.references, id, p.objects[id].content)
  }

  ghost predicate NoTwoRecords(files: seq<FileRecord>) {
    forall i, j :: 0 <= i < |files| && 0 <= j < |files| && files[i].path == files[j].path ==> i == j
  }

  /** A backup is verified exactly when its manifest has the schema and status, lists each payload file once
      with its size, digest and mode, no reference is lost, no referenced object is corrupt, the credentials
      are in order, and the recorded hash is the digest of the payload's own listing. */
  lemma BackupVerifiedByTables(tools: Tools, m: Manifest, p: Payload)
    ensures BackupVerified(tools, m, p) <==>
              && m.schemaVersion == "m6-backup-v1" && m.status == "verified"
              && m.files != [] && NoTwoRecords(m.files) && SameFiles(m.files, p)
              && (forall i :: 0 <= i < |m.files| ==> RecordInOrder(tools.sha, p, m.files[i]))
              && !ReferenceLost(p) && !ReferencedCorrupt(tools.sha, p) && p.credentialsReady
              && m.inventoryHash == InventoryHash(tools, PayloadListing(tools, p), {})
  {
    SameFilesIff(m.files, p);
    PayloadConsistentByTables(tools, p);
    PayloadHash(tools, p);
    forall i | 0 <= i < |m.files| && m.files[i].path in Paths(p)
      ensures RecordFault(tools.sha, p, m.files[i]) == None <==> RecordInOrder(tools.sha, p, m.files[i])
    {
      RecordFaultByTables(tools.sha, p, m.files[i]);
    }
    forall i | 0 <= i < |m.files| && RecordedPaths(m.files) == Paths(p) ensures m.files[i].path in Paths(p) {
      assert m.files[i].path in RecordedPaths(m.files);
    }
  }

  lemma PayloadHash(tools: Tools, p: Payload)
    ensures !ReferenceLost(p) ==>
              Inventory(tools, ObjectsIn(p), p.references, 0).inventoryHash == InventoryHash(tools, PayloadListing(tools, p), {})
  {
    SameListing(tools, p);
    if !ReferenceLost(p) { PayloadErrors(tools, p); }
  }

  lemma ListedColumns(tools: Tools, p: Payload, id: string)
    requires id in p.objects
    ensures id in ListingOf(Inventory(tools, ObjectsIn(p), p.references, 0).entries)
    ensures ListingOf(Inventory(tools, ObjectsIn(p), p.references, 0).entries)[id]
         == HashedColumns(tools.sha, p.references, id, p.objects[id].content)
  {
  }

  lemma SameListing(tools: Tools, p: Payload)
    ensures ListingOf(Inventory(tools, ObjectsIn(p), p.references, 0).entries) == PayloadListing(tools, p)
  {
    var a, b := ListingOf(Inventory(tools, ObjectsIn(p), p.references, 0).entries), PayloadListing(tools, p);
    MapsEqual(a, b, tools, p);
  }

  lemma MapsEqual(a: Listing, b: Listing, tools: Tools, p: Payload)
    requires a.Keys == p.objects.Keys && b == PayloadListing(tools, p)
    requires a == ListingOf(Inventory(tools, ObjectsIn(p), p.references, 0).entries)
    ensures a == b
  {
    forall id | id in a ensures id in b && a[id] == b[id] {
      ListedColumns(tools, p, id);
    }
  }

  lemma RecordedSplit(files: seq<FileRecord>)
    requires files != []
    ensures RecordedPaths(files) == RecordedPaths(files[..|files| - 1]) + {files[|files| - 1].path}
  {
    var front, last := files[..|files| - 1], files[|files| - 1];
    forall path | path in RecordedPaths(files) ensures path in RecordedPaths(front) + {last.path} {
      var i :| 0 <= i < |files| && files[i].path == path;
      if i < |front| { assert front[i].path == path; }
    }
    forall path | path in RecordedPaths(front) ensures path in RecordedPaths(files) {
      var i :| 0 <= i < |front| && front[i].path == path;
      assert files[i].path == path;
    }
  }

  lemma DistinctSplit(files: seq<FileRecord>)
    requires files != []
    ensures DistinctPaths(files) <==>
              DistinctPaths(files[..|files| - 1]) && files[|files| - 1].path !in RecordedPaths(files[..|files| - 1])
  {
    var front, last := files[..|files| - 1], files[|files| - 1];
    if last.path in RecordedPaths(front) {
      var i :| 0 <= i < |front| && front[i].path == last.path;
      assert files[i].path == files[|front|].path;
    } else {
      forall i | 0 <= i < |front| ensures files[i].path != last.path {
        assert front[i].path in RecordedPaths(front);
      }
    }
  }

  lemma {:induction false} RecordedSize(files: seq<FileRecord>)
    ensures |RecordedPaths(files)| <= |files|
    ensures |RecordedPaths(files)| == |files| <==> DistinctPaths(files)
  {
    if files == [] {
      assert RecordedPaths(files) == {};
    } else {
      RecordedSize(files[..|files| - 1]);
      RecordedSplit(files);
      DistinctSplit(files);
    }
  }

  /** What each error found in the listed files and their database means. */
  ghost predicate ContentError(tools: Tools, m: Manifest, p: Payload, e: BackupError) {
    match e
    case HashMismatch => exists i: nat :: FirstBad(tools.sha, m.files, p, i) && ContentDiffers(tools.sha, p, m.files[i])
    case ModeMismatch => exists i: nat :: FirstBad(tools.sha, m.files, p, i) && OnlyModeDiffers(tools.sha, p, m.files[i])
    case ReferenceMissing => FilesMatch(tools.sha, m.files, p) && ReferenceLost(p)
    case ObjectCorrupt => FilesMatch(tools.sha, m.files, p) && !ReferenceLost(p) && ReferencedCorrupt(tools.sha, p)
    case CredentialNotReady =>
      && FilesMatch(tools.sha, m.files, p) && !ReferenceLost(p) && !ReferencedCorrupt(tools.sha, p) && !p.credentialsReady
    case InventoryMismatch =>
      && FilesMatch(tools.sha, m.files, p) && PayloadConsistent(tools, p)
      && m.inventoryHash != Inventory(tools, ObjectsIn(p), p.references, 0).inventoryHash
    case _ => false
  }

  ghost predicate ManifestUsable(m: Manifest) {
    m.schemaVersion == "m6-backup-v1" && m.status == "verified" && m.files != [] && NoTwoRecords(m.files)
  }

  /** verify_backup_manifest, with its checks in order. */
  method VerifyBackupManifest(tools: Tools, m: Manifest, p: Payload) returns (r: Result<Manifest, BackupError>)
    ensures r.Ok? <==> BackupVerified(tools, m, p)
    ensures r.Ok? ==> r.value == m
    ensures r == Err(ManifestInvalid) <==> !ManifestUsable(m)
    ensures r == Err(FileSetMismatch) <==> ManifestUsable(m) && !SameFiles(m.files, p)
    ensures r.Err? && ManifestUsable(m) && SameFiles(m.files, p) ==> ContentError(tools, m, p, r.error)
  {
    if !ManifestLoads(m) {
      return Err(ManifestInvalid);
    }
    var expected := RecordedPaths(m.files);
    RecordedSize(m.files);
    if m.files == [] || |expected| != |m.files| {
      return Err(ManifestInvalid);
    }
    SameFilesIff(m.files, p);
    if Paths(p) != expected {
      return Err(FileSetMismatch);
    }
    r := VerifyContents(tools, m, p);
  }

  /** The checks of the files and of the payload's database. */
  method VerifyContents(tools: Tools, m: Manifest, p: Payload) returns (r: Result<Manifest, BackupError>)
    requires RecordedPaths(m.files) == Paths(p)
    ensures r.Ok? <==> FilesMatch(tools.sha, m.files, p) && PayloadConsistent(tools, p)
                       && Inventory(tools, ObjectsIn(p), p.references, 0).inventoryHash == m.inventoryHash
    ensures r.Ok? ==> r.value == m
    ensures r.Err? ==> ContentError(tools, m, p, r.error)
  {
    var fault := CheckFiles(tools.sha, m.files, p);
    if fault.Some? {
      return Err(fault.value);
    }
    var checked := ValidatePayload(tools, p);
    if checked.Err? {
      return Err(checked.error);
    }
    if checked.value != m.inventoryHash {
      return Err(InventoryMismatch);
    }
    return Ok(m);
  }

  lemma PayloadErrors(tools: Tools, p: Payload)
    ensures var report := Inventory(tools, ObjectsIn(p), p.references, 0);
            && (report.missing == {} <==> !ReferenceLost(p))
            && ((exists id :: id in report.entries && report.entries[id].corrupt && report.entries[id].referencedBy != {})
                <==> ReferencedCorrupt(tools.sha, p))
  {
    var report := Inventory(tools, ObjectsIn(p), p.references, 0);
    forall id ensures id in report.missing <==> id in p.references && id !in p.objects {
      InventoryByTables(tools, ObjectsIn(p), p.references, 0, id);
    }
    if ReferencedCorrupt(tools.sha, p) {
      var id :| id in p.objects && id in p.references && p.references[id] != {} && tools.sha(p.objects[id].content.bytes) != id;
      assert report.entries[id].corrupt && report.entries[id].referencedBy != {};
    }
  }

  /** The loop over the recorded files. */
  method CheckFiles(sha: Sha256, files: seq<FileRecord>, p: Payload) returns (fault: Option<BackupError>)
    requires RecordedPaths(files) == Paths(p)
    ensures fault == None <==> FilesMatch(sha, files, p)
    ensures fault in {None, Some(HashMismatch), Some(ModeMismatch)}
    ensures fault == Some(HashMismatch) <==> exists i: nat :: FirstBad(sha, files, p, i) && ContentDiffers(sha, p, files[i])
    ensures fault == Some(ModeMismatch) <==> exists i: nat :: FirstBad(sha, files, p, i) && OnlyModeDiffers(sha, p, files[i])
  {
    for i := 0 to |files|
      invariant FilesMatch(sha, files[..i], p)
      invariant forall j :: 0 <= j < i ==> RecordInOrder(sha, p, files[j])
    {
      assert files[i].path in RecordedPaths(files);
      fault := RecordFault(sha, p, files[i]);
      RecordFaultByTables(sha, p, files[i]);
      if fault.Some? {
        assert FirstBad(sha, files, p, i);
        OneFirstBad(sha, files, p, i);
        return;
      }
      assert files[..i + 1] == files[..i] + [files[i]];
    }
    assert files[..|files|] == files;
    return None;
  }

  lemma OneFirstBad(sha: Sha256, files: seq<FileRecord>, p: Payload, i: nat)
    requires FirstBad(sha, files, p, i)
    ensures forall j: nat :: FirstBad(sha, files, p, j) ==> j == i
  {
  }

  /** _validate_payload_consistency: the payload's own inventory hash. */
  method ValidatePayload(tools: Tools, p: Payload) returns (r: Result<string, BackupError>)
    ensures r.Ok? <==> PayloadConsistent(tools, p)
    ensures r.Ok? ==> r.value == Inventory(tools, ObjectsIn(p), p.references, 0).inventoryHash
    ensures r.Err? ==> r.error in {ReferenceMissing, ObjectCorrupt, CredentialNotReady}
    ensures r == Err(ReferenceMissing) <==> ReferenceLost(p)
    ensures r == Err(ObjectCorrupt) <==> !ReferenceLost(p) && ReferencedCorrupt(tools.sha, p)
    ensures r == Err(CredentialNotReady) <==> !ReferenceLost(p) && !ReferencedCorrupt(tools.sha, p) && !p.credentialsReady
  {
    PayloadErrors(tools, p);
    var report := BuildInventory(tools, ObjectsIn(p), p.references, 0);
    if report.missing != {} {
      return Err(ReferenceMissing);
    }
    if exists id :: id in report.entries && report.entries[id].corrupt && report.entries[id].referencedBy != {} {
      return Err(ObjectCorrupt);
    }
    if !p.credentialsReady {
      return Err(CredentialNotReady);
    }
    return Ok(report.inventoryHash);
  }

  // ---------- collection ----------

  datatype GcError = TemporaryRootRequired | BackupRequired | BackupInvalid | InventoryChanged

  datatype GcReport = GcReport(inventoryHash: string, deletedCount: nat, deletedBytes: nat, deleted: set<string>)

  predicate BackupMatches(tools: Tools, dataRoot: string, expected: string, m: Manifest, p: Payload) {
    BackupVerified(tools, m, p) && m.sourceRoot == dataRoot && m.inventoryHash == expected
  }

  /** Everything apply checks before it deletes. */
  predicate GuardsPass(tools: Tools, temporaryRoot: bool, dataRoot: string, objects: Objects, references: References,
                       expected: string, backup: Option<(Manifest, Payload)>, graceSeconds: int)
  {
    && temporaryRoot
    && backup.Some?
    && BackupMatches(tools, dataRoot, expected, backup.value.0, backup.value.1)
    && Inventory(tools, objects, references, graceSeconds).inventoryHash == expected
  }

  function Candidates(tools: Tools, objects: Objects, references: References, graceSeconds: int): set<string> {
    set id | id in objects && EntryOf(tools, references, graceSeconds, id, objects[id]).candidate
  }

  /** Everything that must be in order before anything is deleted. */
  lemma GuardsByTables(tools: Tools, temporaryRoot: bool, dataRoot: string, objects: Objects, references: References,
                       expected: string, m: Manifest, p: Payload, graceSeconds: int)
    ensures GuardsPass(tools, temporaryRoot, dataRoot, objects, references, expected, Some((m, p)), graceSeconds) <==>
              && temporaryRoot && BackupVerified(tools, m, p) && m.sourceRoot == dataRoot
              && m.inventoryHash == expected
              && expected == Inventory(tools, objects, references, graceSeconds).inventoryHash
  {
  }

  /** The candidates are exactly the collectable objects. */
  lemma CandidatesByTables(tools: Tools, objects: Objects, references: References, graceSeconds: int)
    ensures forall id :: id in Candidates(tools, objects, references, graceSeconds)
                    <==> Collectable(tools, objects, references, graceSeconds, id)
  {
    forall id ensures id in Candidates(tools, objects, references, graceSeconds)
                 <==> Collectable(tools, objects, references, graceSeconds, id) {
      InventoryByTables(tools, objects, references, graceSeconds, id);
    }
  }

  /** The recorded copy of a deleted object: unreferenced, uncorrupted, and in the payload byte for byte,
      under a manifest record whose digest is the object's id. */
  ghost predicate SafelyBackedUp(tools: Tools, objects: Objects, references: References, m: Manifest, p: Payload, id: string)
  {
    && id in objects && ReferencedBy(references, id) == {} && tools.sha(objects[id].bytes) == id
    && id in p.objects && p.objects[id].content.bytes == objects[id].bytes
    && exists i :: 0 <= i < |m.files| && m.files[i].path == ObjectFile(id) && m.files[i].sha256 == id
  }

  /** Two inventories with one hash list the same objects with the same bytes. */
  lemma SameInventorySameBytes(tools: Tools, a: Objects, referencesA: References, graceA: int,
                               b: Objects, referencesB: References, graceB: int, id: string)
    requires Inventory(tools, a, referencesA, graceA).inventoryHash == Inventory(tools, b, referencesB, graceB).inventoryHash
    requires id in a
    ensures id in b && b[id].bytes == a[id].bytes
  {
    var live, saved := Inventory(tools, a, referencesA, graceA), Inventory(tools, b, referencesB, graceB);
    InventoryHashDecides(tools, ListingOf(live.entries), live.missing, ListingOf(saved.entries), saved.missing);
    assert id in ListingOf(live.entries) && id in ListingOf(saved.entries);
    assert tools.sha(a[id].bytes) == tools.sha(b[id].bytes);
  }

  /** A payload object has a manifest record with its digest. */
  lemma PayloadObjectRecorded(tools: Tools, m: Manifest, p: Payload, id: string)
    requires RecordedPaths(m.files) == Paths(p) && FilesMatch(tools.sha, m.files, p) && id in p.objects
    ensures exists i :: 0 <= i < |m.files| && m.files[i].path == ObjectFile(id)
                        && m.files[i].sha256 == tools.sha(p.objects[id].content.bytes)
  {
    assert ObjectFile(id) in Paths(p);
    assert ObjectFile(id) in RecordedPaths(m.files);
    var i :| 0 <= i < |m.files| && m.files[i].path == ObjectFile(id);
    assert RecordFault(tools.sha, p, m.files[i]) == None;
  }

  /** The chain payload inventory = manifest hash = plan hash carries every candidate into the backup. */
  lemma CandidateIsBackedUp(tools: Tools, dataRoot: string, objects: Objects, references: References,
                            expected: string, m: Manifest, p: Payload, graceSeconds: int, id: string)
    requires GuardsPass(tools, true, dataRoot, objects, references, expected, Some((m, p)), graceSeconds)
    requires id in Candidates(tools, objects, references, graceSeconds)
    ensures SafelyBackedUp(tools, objects, references, m, p, id)
  {
    SameInventorySameBytes(tools, objects, references, graceSeconds, ObjectsIn(p), p.references, 0, id);
    PayloadObjectRecorded(tools, m, p, id);
  }

  /** After deleting the candidates every reference still resolves (a listed reference has a column), and every object that existed
      is either still there or in the backup with the same bytes. */
  lemma CollectionLosesNothing(tools: Tools, dataRoot: string, objects: Objects, references: References,
                               expected: string, m: Manifest, p: Payload, graceSeconds: int)
    requires GuardsPass(tools, true, dataRoot, objects, references, expected, Some((m, p)), graceSeconds)
    requires forall id :: id in references ==> references[id] != {}
    ensures var after := objects - Candidates(tools, objects, references, graceSeconds);
            && (forall id :: id in references ==> id in after && after[id] == objects[id])
            && forall id :: id in objects ==>
                 (id in after && after[id] == objects[id])
                 || (id in p.objects && p.objects[id].content.bytes == objects[id].bytes)
  {
    var live := Inventory(tools, objects, references, graceSeconds);
    var saved := Inventory(tools, ObjectsIn(p), p.references, 0);
    InventoryHashDecides(tools, ListingOf(live.entries), live.missing, ListingOf(saved.entries), saved.missing);
    assert live.missing == saved.missing == {};
    forall id | id in references ensures id in objects {
      assert id in references.Keys - objects.Keys <==> id !in objects;
    }
    forall id | id in Candidates(tools, objects, references, graceSeconds)
      ensures SafelyBackedUp(tools, objects, references, m, p, id)
    {
      CandidateIsBackedUp(tools, dataRoot, objects, references, expected, m, p, graceSeconds, id);
    }
  }

  /** The bytes of a set of objects. */
  ghost function TotalBytes(objects: Objects, ids: set<string>): nat
    requires ids <= objects.Keys
    decreases ids
  {
    if ids == {} then 0
    else var id :| id in ids; |objects[id].bytes| + TotalBytes(objects, ids - {id})
  }

  lemma {:induction false} TotalBytesAdd(objects: Objects, ids: set<string>, id: string)
    requires ids <= objects.Keys && id in objects && id !in ids
    ensures TotalBytes(objects, ids + {id}) == TotalBytes(objects, ids) + |objects[id].bytes|
    decreases ids
  {
    var all := ids + {id};
    var first :| first in all && TotalBytes(objects, all) == |objects[first].bytes| + TotalBytes(objects, all - {first});
    if first == id {
      assert all - {id} == ids;
    } else {
      assert all - {first} == (ids - {first}) + {id};
      TotalBytesAdd(objects, ids - {first}, id);
      assert ids == (ids - {first}) + {first};
      TotalBytesAdd(objects, ids - {first}, first);
    }
  }

  class DataRoot {
    const path: string
    const temporary: bool
    var objects: Objects
    var references: References

    constructor (path: string, temporary: bool, objects: Objects, references: References)
      ensures this.path == path && this.temporary == temporary
      ensures this.objects == objects && this.references == references
    {
      this.path, this.temporary, this.objects, this.references := path, temporary, objects, references;
    }

    /** ObjectGarbageCollector.apply. */
    method Apply(tools: Tools, expected: string, backup: Option<(Manifest, Payload)>, graceSeconds: int)
      returns (r: Result<GcReport, GcError>)
      modifies this`objects
      ensures r.Ok? <==> GuardsPass(tools, temporary, path, old(objects), references, expected, backup, graceSeconds)
      ensures r.Err? ==> objects == old(objects)
      ensures !temporary ==> r == Err(TemporaryRootRequired)
      ensures temporary && backup.None? ==> r == Err(BackupRequired)
      ensures temporary && backup.Some? && r.Err? ==>
                r.error == if BackupMatches(tools, path, expected, backup.value.0, backup.value.1)
                           then InventoryChanged else BackupInvalid
      ensures r.Ok? ==>
                var gone := Candidates(tools, old(objects), references, graceSeconds);
                && objects == old(objects) - gone
                && r.value == GcReport(expected, |gone|, TotalBytes(old(objects), gone), gone)
      ensures r.Ok? ==> forall id ::
                id in old(objects) && id !in objects <==> Collectable(tools, old(objects), references, graceSeconds, id)
    {
      if !temporary {
        return Err(TemporaryRootRequired);
      }
      if backup.None? {
        return Err(BackupRequired);
      }
      var (m, p) := backup.value;
      var verified := VerifyBackupManifest(tools, m, p);
      if verified.Err? {
        return Err(BackupInvalid);
      }
      if m.status != "verified" || m.sourceRoot != path || m.inventoryHash != expected {
        return Err(BackupInvalid);
      }
      var plan := BuildInventory(tools, objects, references, graceSeconds);
      if plan.inventoryHash != expected {
        return Err(InventoryChanged);
      }
      var deleted, deletedBytes := DeleteCandidates(plan.entries);
      assert deleted == Candidates(tools, old(objects), references, graceSeconds);
      CandidatesByTables(tools, old(objects), references, graceSeconds);
      return Ok(GcReport(expected, |deleted|, deletedBytes, deleted));
    }

    /** The loop that unlinks the plan's candidates. */
    method DeleteCandidates(entries: map<string, Entry>) returns (deleted: set<string>, deletedBytes: nat)
      requires entries.Keys == objects.Keys && forall id :: id in objects ==> entries[id].size == |objects[id].bytes|
      modifies this`objects
      ensures deleted == set id | id in entries && entries[id].candidate
      ensures objects == old(objects) - deleted
      ensures deletedBytes == TotalBytes(old(objects), deleted)
    {
      ghost var before := objects;
      deleted, deletedBytes := {}, 0;
      var todo := entries.Keys;
      while todo != {}
        invariant todo <= entries.Keys && deleted <= entries.Keys - todo
        invariant forall id :: id in entries.Keys - todo ==> (id in deleted <==> entries[id].candidate)
        invariant objects.Keys == before.Keys - deleted && forall id :: id in objects ==> objects[id] == before[id]
        invariant deletedBytes == TotalBytes(before, deleted)
        decreases todo
      {
        var id :| id in todo;
        todo := todo - {id};
        if entries[id].candidate {
          TotalBytesAdd(before, deleted, id);
          deletedBytes := deletedBytes + entries[id].size;
          objects := objects - {id};
          deleted := deleted + {id};
        }
      }
    }
  }
}
