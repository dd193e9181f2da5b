/** Publish-last cluster backup over a destination directory, failing or dying at any step. */
module ClusterBackup {
  import opened Common
  import opened DdlTypes

  type Content = seq<nat>
  type Digest = string

  const CLUSTER_BACKUP_FORMAT_VERSION: nat := 1
  const MAX_ARTIFACT_BYTES: nat := 512 * 1024 * 1024
  const MAX_META_BYTES: nat := 16 * 1024 * 1024
  const PAYLOAD_NAME: string := "snapshot.bin"

  /** Relative artifact paths under the backup root. */
  datatype Path = SnapshotPath(tablet: TabletId, name: string) | LogPath(tablet: TabletId)

  datatype BackupFile = BackupFile(path: Path, bytes: nat, sha256: Digest)

  datatype TabletBackupEntry = TabletBackupEntry(
    tabletId: TabletId,
    generation: nat,
    snapshotFiles: seq<BackupFile>,
    logArchive: Option<BackupFile>,
    coveredCommitTs: Timestamp)
  {
    /** Snapshot files, then the log archive if there is one. */
    function Listed(): seq<BackupFile> {
      snapshotFiles + if logArchive.Some? then [logArchive.value] else []
    }
  }

  datatype Manifest = Manifest(
    formatVersion: nat,
    clusterId: nat,
    databaseId: nat,
    metaVersion: MetadataVersion,
    backupTs: Timestamp,
    tablets: seq<TabletBackupEntry>,
    contentSha256: Digest)

  /** The hash of file contents, the hash of a manifest's payload, and the size of its encoding. */
  datatype Codec = Codec(
    hash: Content -> Digest,
    contentHash: (nat, nat, MetadataVersion, Timestamp, seq<TabletBackupEntry>) -> Digest,
    encodedSize: Manifest -> nat)
  {
    function HashOf(m: Manifest): Digest {
      contentHash(m.clusterId, m.databaseId, m.metaVersion, m.backupTs, m.tablets)
    }
  }

  datatype Tablet = Tablet(tabletId: TabletId, generation: nat)

  /** A name-to-content map in its iteration order: no name comes twice. */
  type NamedFiles = fs: seq<(string, Content)> | forall i, j :: 0 <= i < j < |fs| ==> fs[i].0 != fs[j].0

  datatype Artifact = Artifact(
    payload: Content,
    extraFiles: NamedFiles,
    logArchive: Option<Content>,
    coveredCommitTs: Timestamp)

  datatype Request = Request(
    clusterId: nat,
    databaseId: nat,
    metaVersion: MetadataVersion,
    backupTs: Option<Timestamp>,
    tablets: seq<Tablet>)

  /** What the storage hands over for a tablet, if it can. */
  type Source = Tablet -> Option<Artifact>

  /** `Interrupted` stands for an injected fault, an I/O error or a crash. */
  datatype BackupError = InvalidRequest | CaptureFailed | IllegalName | Interrupted | Validation | ManifestUnusable

  datatype Result<T> = Ok(value: T) | Err(error: BackupError)

  type Files = map<Path, Content>

  // ---------------------------------------------------------------- meaning

  predicate Matches(c: Codec, files: Files, f: BackupFile) {
    f.path in files && |files[f.path]| == f.bytes && c.hash(files[f.path]) == f.sha256
  }

  ghost predicate FilesMatch(c: Codec, files: Files, listed: seq<BackupFile>) {
    forall f :: f in listed ==> Matches(c, files, f)
  }

  ghost predicate EntryMatches(c: Codec, files: Files, e: TabletBackupEntry) {
    FilesMatch(c, files, e.Listed())
  }

  ghost predicate AllMatch(c: Codec, files: Files, entries: seq<TabletBackupEntry>) {
    forall i :: 0 <= i < |entries| ==> EntryMatches(c, files, entries[i])
  }

  /** Every listed file is there with its recorded size and hash, and the payload hash holds. */
  ghost predicate Sound(c: Codec, files: Files, m: Manifest) {
    m.formatVersion == CLUSTER_BACKUP_FORMAT_VERSION && c.HashOf(m) == m.contentSha256 && AllMatch(c, files, m.tablets)
  }

  /** The manifest answers the request: every tablet once, in order, each covering the timestamp. */
  ghost predicate Answers(r: Request, m: Manifest) {
    && m.clusterId == r.clusterId && m.databaseId == r.databaseId && m.metaVersion == r.metaVersion
    && |m.tablets| == |r.tablets| && StrictlyOrdered(m.tablets)
    && (forall t :: t in r.tablets ==> exists i :: 0 <= i < |m.tablets| && m.tablets[i].tabletId == t.tabletId && m.tablets[i].generation == t.generation)
    && (match r.backupTs
        case Some(ts) => m.backupTs == ts && forall i :: 0 <= i < |m.tablets| ==> ts <= m.tablets[i].coveredCommitTs
        case None => IsNewest(m.tablets, m.backupTs))
  }

  ghost predicate StrictlyOrdered(entries: seq<TabletBackupEntry>) {
    forall i, j :: 0 <= i < j < |entries| ==> entries[i].tabletId < entries[j].tabletId
  }

  ghost predicate IsNewest(entries: seq<TabletBackupEntry>, ts: Timestamp) {
    && (exists i :: 0 <= i < |entries| && entries[i].coveredCommitTs == ts)
    && forall i :: 0 <= i < |entries| ==> entries[i].coveredCommitTs <= ts
  }

  // --------------------------------------------------------------- ordering

  function TabletIdOf(t: Tablet): nat { t.tabletId }

  ghost predicate Ascending(ts: seq<Tablet>) { StrictlyBy(ts, TabletIdOf) }

  /** No reserved id, and no id twice. */
  ghost predicate IdsOk(ts: seq<Tablet>) {
    && (forall i :: 0 <= i < |ts| ==> ts[i].tabletId != 0)
    && forall i, j :: 0 <= i < j < |ts| ==> ts[i].tabletId != ts[j].tabletId
  }

  ghost predicate RequestOk(r: Request) {
    r.tablets != [] && r.clusterId != 0 && r.databaseId != 0 && IdsOk(r.tablets)
  }

  ghost predicate InIdOrder(ordered: seq<Tablet>, ts: seq<Tablet>) {
    Ascending(ordered) && |ordered| == |ts| && forall t :: t in ordered <==> t in ts
  }

  lemma NextTablet(ordered: seq<Tablet>, ts: seq<Tablet>, t: Tablet)
    requires InIdOrder(ordered, ts) && IdsOk(ts)
    ensures IdsOk(ts + [t]) <==> t.tabletId != 0 && forall y :: y in ordered ==> y.tabletId != t.tabletId
    ensures IdsOk(ts + [t]) ==> InIdOrder(Placed(ordered, t, TabletIdOf), ts + [t])
  {
    assert (ts + [t])[|ts|] == t;
    forall y | y in ordered && y.tabletId == t.tabletId ensures !IdsOk(ts + [t]) {
      var i :| 0 <= i < |ts| && ts[i] == y;
      assert (ts + [t])[i].tabletId == (ts + [t])[|ts|].tabletId;
    }
    if forall y :: y in ordered ==> y.tabletId != t.tabletId {
      PlacedStrictly(ordered, t, TabletIdOf);
    }
  }

  /** Refuse an empty request, reserved ids and repeated tablets; put the tablets in id order. */
  method OrderedTablets(r: Request) returns (ordered: Result<seq<Tablet>>)
    ensures ordered.Ok? <==> RequestOk(r)
    ensures ordered.Ok? ==> InIdOrder(ordered.value, r.tablets)
    ensures ordered.Err? ==> ordered.error == InvalidRequest
  {
    if r.tablets == [] || r.clusterId == 0 || r.databaseId == 0 {
      return Err(InvalidRequest);
    }
    var seen: seq<Tablet> := [];
    for n := 0 to |r.tablets|
      invariant InIdOrder(seen, r.tablets[..n]) && IdsOk(r.tablets[..n])
    {
      var t := r.tablets[n];
      NextTablet(seen, r.tablets[..n], t);
      assert r.tablets[..n + 1] == r.tablets[..n] + [t];
      if exists y :: y in seen && y.tabletId == t.tabletId {
        assert !IdsOk(r.tablets[..n + 1]);
        return Err(InvalidRequest);
      }
      if t.tabletId == 0 {
        return Err(InvalidRequest);
      }
      seen := Placed(seen, t, TabletIdOf);
    }
    assert r.tablets[..|r.tablets|] == r.tablets;
    ordered := Ok(seen);
  }

  // ------------------------------------------------------------ destination

  predicate LegalName(name: string) {
    && (forall i :: 0 <= i < |name| ==> name[i] != '/' && name[i] != '\\')
    && forall i :: 0 <= i < |name| - 1 ==> !(name[i] == '.' && name[i + 1] == '.')
  }

  ghost predicate Occurs(part: string, s: string) {
    exists before: string, after: string :: s == before + part + after
  }

  /** A legal name holds no separator and no way up. */
  lemma LegalNameIff(name: string)
    ensures LegalName(name) <==> !Occurs("/", name) && !Occurs("\\", name) && !Occurs("..", name)
  {
    forall part | part in ["/", "\\", ".."] && Occurs(part, name) ensures !LegalName(name) {
      var before, after :| name == before + part + after;
      assert name[|before|] == part[0] && name[|before| + |part| - 1] == part[|part| - 1];
    }
    forall i | 0 <= i < |name| ensures Occurs([name[i]], name) {
      assert name == name[..i] + [name[i]] + name[i + 1..];
    }
    forall i | 0 <= i < |name| - 1 ensures Occurs([name[i], name[i + 1]], name) {
      assert name == name[..i] + [name[i], name[i + 1]] + name[i + 2..];
    }
  }

  function FileOf(c: Codec, path: Path, content: Content): BackupFile {
    BackupFile(path, |content|, c.hash(content))
  }

  /** Another tablet's files are not touched. */
  ghost predicate OthersKept(files: Files, files': Files, tablet: TabletId) {
    forall p :: p in files && p.tablet != tablet ==> p in files' && files'[p] == files[p]
  }

  // ----------------------------------------------------------------- entries

  function PayloadPath(tablet: TabletId): Path { SnapshotPath(tablet, PAYLOAD_NAME) }

  /** What the manifest is to say of one tablet: the payload, every extra file, the log if there is one. */
  function EntryFor(c: Codec, t: Tablet, a: Artifact): TabletBackupEntry {
    TabletBackupEntry(
      t.tabletId,
      t.generation,
      [FileOf(c, PayloadPath(t.tabletId), a.payload)] + ExtrasFor(c, t, a.extraFiles),
      if a.logArchive.Some? then Some(FileOf(c, LogPath(t.tabletId), a.logArchive.value)) else None,
      a.coveredCommitTs)
  }

  function ExtrasFor(c: Codec, t: Tablet, extras: seq<(string, Content)>): seq<BackupFile> {
    seq(|extras|, i requires 0 <= i < |extras| => FileOf(c, SnapshotPath(t.tabletId, extras[i].0), extras[i].1))
  }

  /** Listed are the payload, the extra files and the log, each with its size and hash, and nothing else. */
  lemma EntryLists(c: Codec, t: Tablet, a: Artifact, f: BackupFile)
    ensures f in EntryFor(c, t, a).Listed() <==>
      || f == BackupFile(SnapshotPath(t.tabletId, "snapshot.bin"), |a.payload|, c.hash(a.payload))
      || (exists i :: 0 <= i < |a.extraFiles| && f == BackupFile(SnapshotPath(t.tabletId, a.extraFiles[i].0), |a.extraFiles[i].1|, c.hash(a.extraFiles[i].1)))
      || (a.logArchive.Some? && f == BackupFile(LogPath(t.tabletId), |a.logArchive.value|, c.hash(a.logArchive.value)))
  {
    var e := EntryFor(c, t, a);
    assert e.Listed()[0] == FileOf(c, PayloadPath(t.tabletId), a.payload);
    forall i | 0 <= i < |a.extraFiles| ensures FileOf(c, SnapshotPath(t.tabletId, a.extraFiles[i].0), a.extraFiles[i].1) in e.Listed() {
      assert e.Listed()[i + 1] == ExtrasFor(c, t, a.extraFiles)[i];
    }
    if a.logArchive.Some? {
      assert e.Listed()[|e.Listed()| - 1] == e.logArchive.value;
    }
    if f in ExtrasFor(c, t, a.extraFiles) {
      var i :| 0 <= i < |a.extraFiles| && ExtrasFor(c, t, a.extraFiles)[i] == f;
    }
  }

  /** The destination holds the artifact, byte for byte; an extra file under the payload's name has replaced the payload. */
  ghost predicate Stored(files: Files, tablet: TabletId, a: Artifact) {
    && PayloadPath(tablet) in files && (NoClash(a) ==> files[PayloadPath(tablet)] == a.payload)
    && ExtrasStored(files, tablet, a.extraFiles)
    && (a.logArchive.Some? ==> LogPath(tablet) in files && files[LogPath(tablet)] == a.logArchive.value)
  }

  lemma OneMoreListed(c: Codec, t: Tablet, extras: seq<(string, Content)>, n: nat)
    requires n < |extras|
    ensures ExtrasFor(c, t, extras[..n + 1]) == ExtrasFor(c, t, extras[..n]) + [FileOf(c, SnapshotPath(t.tabletId, extras[n].0), extras[n].1)]
  {
  }

  lemma OneMoreStored(files: Files, tablet: TabletId, extras: NamedFiles, n: nat)
    requires n < |extras| && ExtrasStored(files, tablet, extras[..n])
    ensures ExtrasStored(files[SnapshotPath(tablet, extras[n].0) := extras[n].1], tablet, extras[..n + 1])
  {
    forall i | 0 <= i < n ensures extras[i].0 != extras[n].0 && extras[..n][i] == extras[i] {
    }
  }

  ghost predicate ExtrasStored(files: Files, tablet: TabletId, extras: seq<(string, Content)>) {
    forall i :: 0 <= i < |extras| ==> SnapshotPath(tablet, extras[i].0) in files && files[SnapshotPath(tablet, extras[i].0)] == extras[i].1
  }

  predicate NoClash(a: Artifact) {
    forall i :: 0 <= i < |a.extraFiles| ==> a.extraFiles[i].0 != PAYLOAD_NAME
  }

  predicate AllLegal(a: Artifact) {
    forall i :: 0 <= i < |a.extraFiles| ==> LegalName(a.extraFiles[i].0)
  }

  /** What replaced the payload, if anything did, passes for it. */
  predicate PassesForPayload(c: Codec, a: Artifact) {
    forall i :: 0 <= i < |a.extraFiles| && a.extraFiles[i].0 == PAYLOAD_NAME ==>
      |a.extraFiles[i].1| == |a.payload| && c.hash(a.extraFiles[i].1) == c.hash(a.payload)
  }

  /** The record of a stored artifact is true of the files exactly when nothing else stands where the payload should. */
  lemma StoredMatchesIff(c: Codec, files: Files, t: Tablet, a: Artifact)
    requires Stored(files, t.tabletId, a)
    ensures EntryMatches(c, files, EntryFor(c, t, a)) <==> PassesForPayload(c, a)
  {
    var e := EntryFor(c, t, a);
    var payload := FileOf(c, PayloadPath(t.tabletId), a.payload);
    assert e.snapshotFiles[0] == payload && payload in e.Listed();
    forall f | f in e.Listed() && f != payload ensures Matches(c, files, f) {
      if f in ExtrasFor(c, t, a.extraFiles) {
        var i :| 0 <= i < |a.extraFiles| && ExtrasFor(c, t, a.extraFiles)[i] == f;
      } else {
        assert f == e.logArchive.value;
      }
    }
    assert EntryMatches(c, files, e) <==> Matches(c, files, payload);
    if i :| 0 <= i < |a.extraFiles| && a.extraFiles[i].0 == PAYLOAD_NAME {
      assert files[PayloadPath(t.tabletId)] == a.extraFiles[i].1;
      assert !NoClash(a);
    }
  }

  /** Writing for another tablet leaves what is stored for this one. */
  lemma StoredKept(files: Files, files': Files, tablet: TabletId, other: TabletId, a: Artifact)
    requires Stored(files, tablet, a) && OthersKept(files, files', other) && tablet != other
    ensures Stored(files', tablet, a)
  {
  }

  predicate Capturable(source: Source, t: Tablet) {
    source(t).Some? && AllLegal(source(t).value)
  }

  /** The entry is the one for what the storage handed over, and the destination holds that. */
  ghost predicate Preserved(c: Codec, files: Files, source: Source, e: TabletBackupEntry) {
    var t := Tablet(e.tabletId, e.generation);
    source(t).Some? && e == EntryFor(c, t, source(t).value) && Stored(files, e.tabletId, source(t).value)
  }

  /** Everything a run needs that a caller can know beforehand. */
  ghost predicate Feasible(c: Codec, source: Source, r: Request) {
    && RequestOk(r)
    && (forall t :: t in r.tablets ==> Capturable(source, t) && PassesForPayload(c, source(t).value) && InSize(source(t).value))
    && (r.backupTs.Some? ==> forall t :: t in r.tablets ==> r.backupTs.value <= source(t).value.coveredCommitTs)
  }

  predicate InSize(a: Artifact) {
    && |a.payload| <= MAX_ARTIFACT_BYTES && (a.logArchive.Some? ==> |a.logArchive.value| <= MAX_ARTIFACT_BYTES)
    && forall i :: 0 <= i < |a.extraFiles| ==> |a.extraFiles[i].1| <= MAX_ARTIFACT_BYTES
  }

  lemma EntryInSizeIff(c: Codec, t: Tablet, a: Artifact)
    ensures EntryInSize(EntryFor(c, t, a)) <==> InSize(a)
  {
    var e := EntryFor(c, t, a);
    EntryLists(c, t, a, FileOf(c, PayloadPath(t.tabletId), a.payload));
    forall i | 0 <= i < |a.extraFiles| ensures FileOf(c, SnapshotPath(t.tabletId, a.extraFiles[i].0), a.extraFiles[i].1) in e.Listed() {
      EntryLists(c, t, a, FileOf(c, SnapshotPath(t.tabletId, a.extraFiles[i].0), a.extraFiles[i].1));
    }
    if a.logArchive.Some? {
      EntryLists(c, t, a, FileOf(c, LogPath(t.tabletId), a.logArchive.value));
    }
    forall f | f in e.Listed() && InSize(a) ensures f.bytes <= MAX_ARTIFACT_BYTES {
      EntryLists(c, t, a, f);
    }
  }

  class BackupDestination {
    var files: Files
    var manifest: Option<Manifest>
    /** Whether writes may fail and the process may die. */
    const faulty: bool

    constructor (files: Files, manifest: Option<Manifest>, faulty: bool)
      ensures this.files == files && this.manifest == manifest && this.faulty == faulty
    {
      this.files, this.manifest, this.faulty := files, manifest, faulty;
    }

    /** Truncate and write; dying in the middle leaves whatever was written so far. */
    method Write(path: Path, content: Content) returns (done: bool)
      modifies `files
      ensures done ==> files == old(files)[path := content]
      ensures !done ==> faulty
      ensures files.Keys == old(files).Keys + {path} && forall p :: p in old(files) && p != path ==> files[p] == old(files)[p]
    {
      var torn := Dies(faulty);
      done := !torn;
      if done {
        files := files[path := content];
      } else {
        var part: Content := *;
        files := files[path := part];
      }
    }

    /** The files beside the payload, in order; a bad name or a failed write stops. */
    method WriteExtras(c: Codec, t: Tablet, extras: NamedFiles) returns (r: Result<seq<BackupFile>>)
      modifies `files
      ensures r.Ok? ==> r.value == ExtrasFor(c, t, extras) && ExtrasStored(files, t.tabletId, extras)
      ensures r.Ok? ==> forall i :: 0 <= i < |extras| ==> LegalName(extras[i].0)
      ensures r.Ok? && PayloadPath(t.tabletId) in old(files) ==> PayloadPath(t.tabletId) in files
      ensures r.Ok? && PayloadPath(t.tabletId) in old(files) && (forall i :: 0 <= i < |extras| ==> extras[i].0 != PAYLOAD_NAME) ==>
        files[PayloadPath(t.tabletId)] == old(files)[PayloadPath(t.tabletId)]
      ensures r.Err? ==> (r.error.IllegalName? && exists i :: 0 <= i < |extras| && !LegalName(extras[i].0)) || (r.error.Interrupted? && faulty)
      ensures OthersKept(old(files), files, t.tabletId)
    {
      var listed: seq<BackupFile> := [];
      for n := 0 to |extras|
        invariant listed == ExtrasFor(c, t, extras[..n]) && ExtrasStored(files, t.tabletId, extras[..n])
        invariant forall i :: 0 <= i < n ==> LegalName(extras[i].0)
        invariant PayloadPath(t.tabletId) in old(files) ==> PayloadPath(t.tabletId) in files
        invariant PayloadPath(t.tabletId) in old(files) && (forall i :: 0 <= i < n ==> extras[i].0 != PAYLOAD_NAME) ==>
          files[PayloadPath(t.tabletId)] == old(files)[PayloadPath(t.tabletId)]
        invariant OthersKept(old(files), files, t.tabletId)
      {
        var (name, content) := extras[n];
        if !LegalName(name) {
          return Err(IllegalName);
        }
        ghost var before := files;
        var done := Write(SnapshotPath(t.tabletId, name), content);
        if !done {
          return Err(Interrupted);
        }
        OneMoreStored(before, t.tabletId, extras, n);
        OneMoreListed(c, t, extras, n);
        listed := listed + [FileOf(c, SnapshotPath(t.tabletId, name), content)];
      }
      assert extras[..|extras|] == extras;
      r := Ok(listed);
    }

    /** Write one tablet's payload, extra files and log, recording what was meant to be written. */
    method MaterializeTablet(c: Codec, t: Tablet, a: Artifact) returns (r: Result<TabletBackupEntry>)
      modifies `files
      ensures r.Ok? ==> r.value == EntryFor(c, t, a) && Stored(files, t.tabletId, a) && AllLegal(a)
      ensures r.Ok? ==> (EntryMatches(c, files, r.value) <==> PassesForPayload(c, a))
      ensures r.Err? ==> (r.error.IllegalName? && !AllLegal(a)) || (r.error.Interrupted? && faulty)
      ensures OthersKept(old(files), files, t.tabletId)
    {
      var done := Write(PayloadPath(t.tabletId), a.payload);
      if !done {
        return Err(Interrupted);
      }
      var extras := WriteExtras(c, t, a.extraFiles);
      if extras.Err? {
        return Err(extras.error);
      }
      var log := None;
      if a.logArchive.Some? {
        done := Write(LogPath(t.tabletId), a.logArchive.value);
        if !done {
          return Err(Interrupted);
        }
        log := Some(FileOf(c, LogPath(t.tabletId), a.logArchive.value));
      }
      var listed := [FileOf(c, PayloadPath(t.tabletId), a.payload)] + extras.value;
      r := Ok(TabletBackupEntry(t.tabletId, t.generation, listed, log, a.coveredCommitTs));
      StoredMatchesIff(c, files, t, a);
    }

    /** Re-hash the listed files, counting files and bytes. */
    method CheckFiles(c: Codec, listed: seq<BackupFile>) returns (ok: bool, checkedFiles: nat, checkedBytes: nat)
      ensures ok <==> FilesMatch(c, files, listed)
      ensures ok ==> checkedFiles == |listed| && checkedBytes == Bytes(listed)
    {
      checkedFiles, checkedBytes := 0, 0;
      for i := 0 to |listed|
        invariant forall j :: 0 <= j < i ==> Matches(c, files, listed[j])
        invariant checkedFiles == i && checkedBytes == Bytes(listed[..i])
      {
        if !Matches(c, files, listed[i]) {
          ok := false;
          return;
        }
        assert listed[..i + 1][..i] == listed[..i];
        checkedFiles := checkedFiles + 1;
        checkedBytes := checkedBytes + listed[i].bytes;
      }
      assert listed[..|listed|] == listed;
      ok := true;
    }

    /** Pass exactly if there is something to validate, in size, and every listed file is there as recorded. */
    method ValidateEntries(c: Codec, entries: seq<TabletBackupEntry>) returns (ok: bool)
      ensures ok <==> entries != [] && AllMatch(c, files, entries) && AllInSize(entries)
    {
      if entries == [] {
        return false;
      }
      for i := 0 to |entries|
        invariant forall j :: 0 <= j < i ==> EntryMatches(c, files, entries[j]) && EntryInSize(entries[j])
      {
        if entries[i].snapshotFiles == [] || exists f :: f in entries[i].Listed() && f.bytes > MAX_ARTIFACT_BYTES {
          assert !EntryInSize(entries[i]);
          return false;
        }
        var matches, _, _ := CheckFiles(c, entries[i].Listed());
        if !matches {
          return false;
        }
      }
      ok := true;
    }

    /** Capture every tablet in order; any of the steps may fail. */
    method CaptureTablets(c: Codec, source: Source, ordered: seq<Tablet>) returns (r: Result<seq<TabletBackupEntry>>)
      requires Ascending(ordered)
      modifies `files
      ensures r.Ok? ==> |r.value| == |ordered|
      ensures r.Ok? ==> forall i :: 0 <= i < |ordered| ==> Tablet(r.value[i].tabletId, r.value[i].generation) == ordered[i]
      ensures r.Ok? ==> forall i :: 0 <= i < |ordered| ==> Capturable(source, ordered[i]) && Preserved(c, files, source, r.value[i])
      ensures r.Err? ==> (exists i :: 0 <= i < |ordered| && !Capturable(source, ordered[i])) || (r.error.Interrupted? && faulty)
      ensures r.Err? ==> r.error.CaptureFailed? || r.error.IllegalName? || r.error.Interrupted?
    {
      var entries: seq<TabletBackupEntry> := [];
      for n := 0 to |ordered|
        invariant |entries| == n
        invariant forall i :: 0 <= i < n ==> Tablet(entries[i].tabletId, entries[i].generation) == ordered[i]
        invariant forall i :: 0 <= i < n ==> Capturable(source, ordered[i]) && Preserved(c, files, source, entries[i])
      {
        var artifact := source(ordered[n]);
        if artifact.None? {
          return Err(CaptureFailed);
        }
        ghost var before := files;
        var entry := MaterializeTablet(c, ordered[n], artifact.value);
        if entry.Err? {
          return Err(entry.error);
        }
        forall i | 0 <= i < n ensures Preserved(c, files, source, entries[i]) {
          assert TabletIdOf(ordered[i]) < TabletIdOf(ordered[n]);
          StoredKept(before, files, ordered[i].tabletId, ordered[n].tabletId, source(ordered[i]).value);
        }
        var dies := Dies(faulty);
        if dies {
          return Err(Interrupted);
        }
        entries := entries + [entry.value];
      }
      r := Ok(entries);
    }

    /** The requested timestamp if every tablet covers it; with none requested, the newest covered. */
    method ResolveTimestamp(requested: Option<Timestamp>, entries: seq<TabletBackupEntry>) returns (r: Result<Timestamp>)
      ensures requested.Some? ==> (r.Ok? <==> forall i :: 0 <= i < |entries| ==> requested.value <= entries[i].coveredCommitTs)
      ensures requested.Some? && r.Ok? ==> r.value == requested.value
      ensures requested.None? ==> (r.Ok? <==> entries != []) && (r.Ok? ==> IsNewest(entries, r.value))
      ensures r.Err? ==> r.error == if requested.Some? then Validation else InvalidRequest
    {
      match requested {
        case Some(ts) =>
          for i := 0 to |entries|
            invariant forall j :: 0 <= j < i ==> ts <= entries[j].coveredCommitTs
          {
            if entries[i].coveredCommitTs < ts {
              return Err(Validation);
            }
          }
          r := Ok(ts);
        case None =>
          if entries == [] {
            return Err(InvalidRequest);
          }
          var newest := entries[0].coveredCommitTs;
          for i := 1 to |entries|
            invariant exists j :: 0 <= j < i && entries[j].coveredCommitTs == newest
            invariant forall j :: 0 <= j < i ==> entries[j].coveredCommitTs <= newest
          {
            if entries[i].coveredCommitTs > newest {
              newest := entries[i].coveredCommitTs;
            }
          }
          r := Ok(newest);
      }
    }

    /** Swap the manifest in, then read it back: one too large to read has been published all the same. */
    method PublishManifest(c: Codec, m: Manifest) returns (r: Result<()>)
      modifies `manifest
      ensures manifest == old(manifest) || manifest == Some(m)
      ensures r.Ok? ==> manifest == Some(m) && c.encodedSize(m) <= MAX_META_BYTES
      ensures r == Err(ManifestUnusable) ==> manifest == Some(m) && c.encodedSize(m) > MAX_META_BYTES
      ensures r.Err? ==> r.error.ManifestUnusable? || (r.error.Interrupted? && faulty)
    {
      var dies := Dies(faulty);
      if dies {
        return Err(Interrupted);
      }
      manifest := Some(m);
      dies := Dies(faulty);
      if dies {
        return Err(Interrupted);
      }
      if c.encodedSize(m) > MAX_META_BYTES {
        return Err(ManifestUnusable);
      }
      r := Ok(());
    }

    /**
     * The whole protocol. Wherever it stops, a destination that held no manifest holds one only if
     * it is sound, answers the request, and the files are byte for byte what the storage handed over.
     * A run that nothing disturbs publishes exactly the feasible requests.
     */
    method RunClusterBackup(c: Codec, source: Source, request: Request) returns (r: Result<Manifest>)
      modifies this
      ensures r.Ok? ==> manifest == Some(r.value) && c.encodedSize(r.value) <= MAX_META_BYTES
      ensures r == Err(InvalidRequest) <==> !RequestOk(request)
      ensures r == Err(InvalidRequest) ==> files == old(files)
      ensures manifest != old(manifest) || r.Ok? ==> manifest.Some? && Feasible(c, source, request)
      ensures manifest != old(manifest) || r.Ok? ==> Sound(c, files, manifest.value) && Answers(request, manifest.value)
      ensures manifest != old(manifest) || r.Ok? ==> forall i :: 0 <= i < |manifest.value.tablets| ==> Preserved(c, files, source, manifest.value.tablets[i])
      ensures !faulty && Feasible(c, source, request) ==>
        manifest.Some? && Answers(request, manifest.value) && if c.encodedSize(manifest.value) <= MAX_META_BYTES then r.Ok? else r == Err(ManifestUnusable)
    {
      var ordered := OrderedTablets(request);
      if ordered.Err? {
        return Err(ordered.error);
      }
      var dies := Dies(faulty);
      if dies {
        return Err(Interrupted);
      }
      var captured := CaptureTablets(c, source, ordered.value);
      if captured.Err? {
        return Err(captured.error);
      }
      var entries := captured.value;
      CapturedFeasible(c, files, source, request, ordered.value, entries);
      var ts := ResolveTimestamp(request.backupTs, entries);
      if ts.Err? {
        return Err(ts.error);
      }
      var valid := ValidateEntries(c, entries);
      if !valid {
        return Err(Validation);
      }
      var m := Manifest(CLUSTER_BACKUP_FORMAT_VERSION, request.clusterId, request.databaseId, request.metaVersion, ts.value, entries,
                        c.contentHash(request.clusterId, request.databaseId, request.metaVersion, ts.value, entries));
      CapturedAnswers(request, ordered.value, m);
      var published := PublishManifest(c, m);
      if published.Err? {
        return Err(published.error);
      }
      dies := Dies(faulty);
      if dies {
        return Err(Interrupted);
      }
      r := Ok(m);
    }

    /** Load the manifest, recompute its payload hash and re-hash every listed file. */
    method VerifyBackup(c: Codec) returns (r: Result<(nat, nat)>)
      ensures r.Ok? <==> manifest.Some? && c.encodedSize(manifest.value) <= MAX_META_BYTES && Sound(c, files, manifest.value)
      ensures r.Ok? ==> r.value == (|AllListed(manifest.value.tablets)|, Bytes(AllListed(manifest.value.tablets)))
    {
      if manifest.None? || c.encodedSize(manifest.value) > MAX_META_BYTES {
        return Err(ManifestUnusable);
      }
      var m := manifest.value;
      if m.formatVersion != CLUSTER_BACKUP_FORMAT_VERSION {
        return Err(ManifestUnusable);
      }
      if c.HashOf(m) != m.contentSha256 {
        return Err(Validation);
      }
      var ok, checkedFiles, checkedBytes := CheckFiles(c, AllListed(m.tablets));
      ListedMatchesIff(c, files, m.tablets);
      if !ok {
        return Err(Validation);
      }
      r := Ok((checkedFiles, checkedBytes));
    }
  }

  predicate EntryInSize(e: TabletBackupEntry) {
    e.snapshotFiles != [] && forall f :: f in e.Listed() ==> f.bytes <= MAX_ARTIFACT_BYTES
  }

  ghost predicate AllInSize(entries: seq<TabletBackupEntry>) {
    forall i :: 0 <= i < |entries| ==> EntryInSize(entries[i])
  }

  /** Every file of every entry, one after the other. */
  function AllListed(entries: seq<TabletBackupEntry>): seq<BackupFile> {
    if entries == [] then [] else AllListed(entries[..|entries| - 1]) + entries[|entries| - 1].Listed()
  }

  function Bytes(fs: seq<BackupFile>): nat {
    if fs == [] then 0 else Bytes(fs[..|fs| - 1]) + fs[|fs| - 1].bytes
  }

  lemma {:induction false} ListedMatchesIff(c: Codec, files: Files, entries: seq<TabletBackupEntry>)
    ensures FilesMatch(c, files, AllListed(entries)) <==> AllMatch(c, files, entries)
  {
    if entries != [] {
      var n := |entries| - 1;
      ListedMatchesIff(c, files, entries[..n]);
      assert AllMatch(c, files, entries) <==> AllMatch(c, files, entries[..n]) && EntryMatches(c, files, entries[n]) by {
        assert forall i :: 0 <= i < n ==> entries[..n][i] == entries[i];
      }
    }
  }

  /** With everything captured, what remains to be checked is what makes the request feasible. */
  lemma CapturedFeasible(c: Codec, files: Files, source: Source, r: Request, ordered: seq<Tablet>, entries: seq<TabletBackupEntry>)
    requires RequestOk(r) && InIdOrder(ordered, r.tablets) && |entries| == |ordered|
    requires forall i :: 0 <= i < |ordered| ==> Tablet(entries[i].tabletId, entries[i].generation) == ordered[i]
    requires forall i :: 0 <= i < |ordered| ==> Capturable(source, ordered[i]) && Preserved(c, files, source, entries[i])
    ensures Feasible(c, source, r) <==>
      && AllMatch(c, files, entries) && AllInSize(entries)
      && (r.backupTs.Some? ==> forall i :: 0 <= i < |entries| ==> r.backupTs.value <= entries[i].coveredCommitTs)
  {
    forall i | 0 <= i < |ordered|
      ensures EntryMatches(c, files, entries[i]) <==> PassesForPayload(c, source(ordered[i]).value)
      ensures EntryInSize(entries[i]) <==> InSize(source(ordered[i]).value)
      ensures entries[i].coveredCommitTs == source(ordered[i]).value.coveredCommitTs && ordered[i] in r.tablets
    {
      StoredMatchesIff(c, files, ordered[i], source(ordered[i]).value);
      EntryInSizeIff(c, ordered[i], source(ordered[i]).value);
      assert ordered[i] in ordered;
    }
    forall t | t in r.tablets ensures exists i :: 0 <= i < |ordered| && ordered[i] == t {
      assert t in ordered;
    }
  }

  lemma CapturedAnswers(r: Request, ordered: seq<Tablet>, m: Manifest)
    requires Ascending(ordered) && |ordered| == |r.tablets| == |m.tablets| && forall t :: t in ordered <==> t in r.tablets
    requires forall i :: 0 <= i < |ordered| ==> m.tablets[i].tabletId == ordered[i].tabletId && m.tablets[i].generation == ordered[i].generation
    requires m.clusterId == r.clusterId && m.databaseId == r.databaseId && m.metaVersion == r.metaVersion
    requires match r.backupTs
             case Some(ts) => m.backupTs == ts && forall i :: 0 <= i < |m.tablets| ==> ts <= m.tablets[i].coveredCommitTs
             case None => IsNewest(m.tablets, m.backupTs)
    ensures Answers(r, m)
  {
  }

  /** Writing over one artifact of a sound backup leaves it sound exactly when every listing of that path still matches. */
  lemma OverwriteIff(c: Codec, files: Files, m: Manifest, path: Path, content: Content)
    requires Sound(c, files, m)
    ensures Sound(c, files[path := content], m) <==>
            forall i, f :: 0 <= i < |m.tablets| && f in m.tablets[i].Listed() && f.path == path ==> FileOf(c, path, content) == f
  {
  }
}
