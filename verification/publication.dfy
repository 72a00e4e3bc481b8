/** Atomic publication of a capture as file operations, and what the parser side discovers between any two. */
module SpoolPublication {
  // A SHA-256 digest is an ideal hash: it is the hashed content itself.

  import opened Options
  import opened RchBytes
  import opened CapturedJobs
  import opened RecorderModel
  import RecorderTheorems

  datatype Key = RequestRaw | ResponseRaw | TimelineKey

  /** File names inside a job directory; a stamped name carries the epoch stamp of its direction. */
  datatype Name =
    | LivePartial(key: Key)
    | StampedPartial(key: Key, stamp: nat)
    | Stamped(key: Key, stamp: nat)
    | MetaPartial
    | ManifestName
    | ReadyName

  predicate IsPartial(n: Name) {
    n.LivePartial? || n.StampedPartial? || n.MetaPartial?
  }

  datatype Names = Names(request: Name, response: Name, timeline: Name)

  datatype Manifest = Manifest(
    code: string,
    files: Names,
    requestHash: Content,
    responseHash: Content,
    timelineHash: Content,
    complete: bool)

  datatype Content =
    | Raw(bytes: seq<byte>)
    | TimelineRecords(chunks: seq<Chunk>)
    | ManifestJson(manifest: Manifest)
    | ReadyJson(code: string, manifestHash: Content)
    | MetaJson

  type Files = map<Name, Content>

  /** A staging directory is hidden; only a directory named by a code alone is visible to the parser. */
  datatype DirName = Hidden(code: string, jobId: string) | Final(code: string)

  datatype Path = Path(day: nat, name: DirName)

  type Spool = map<Path, Files>

  /** One file operation inside a directory. */
  datatype FileOp =
    | Write(name: Name, content: Content)
    | Replace(source: Name, target: Name)
    | Unlink(name: Name)

  predicate CanDo(files: Files, op: FileOp) {
    match op
    case Write(_, _) => true
    case Replace(source, _) => source in files
    case Unlink(n) => n in files
  }

  function Do(files: Files, op: FileOp): Files
    requires CanDo(files, op)
  {
    match op
    case Write(n, c) => files[n := c]
    case Replace(source, target) => (files - {source})[target := files[source]]
    case Unlink(n) => files - {n}
  }

  predicate CanDoAll(files: Files, ops: seq<FileOp>)
    decreases |ops|
  {
    ops == [] || (CanDo(files, ops[0]) && CanDoAll(Do(files, ops[0]), ops[1..]))
  }

  function DoAll(files: Files, ops: seq<FileOp>): Files
    requires CanDoAll(files, ops)
    decreases |ops|
  {
    if ops == [] then files else DoAll(Do(files, ops[0]), ops[1..])
  }

  // ---------------------------------------------------------------- the two writers

  datatype Target = Target(day: nat, code: string, jobId: string, requestStamp: nat, responseStamp: nat) {
    function Staging(): Path { Path(day, Hidden(code, jobId)) }
    function Visible(): Path { Path(day, Final(code)) }
    function FileNames(): Names {
      Names(Stamped(RequestRaw, requestStamp), Stamped(ResponseRaw, responseStamp), Stamped(TimelineKey, requestStamp))
    }
  }

  function ManifestOf(t: Target, p: Publication): Manifest {
    Manifest(t.code, t.FileNames(), Raw(p.raw.request), Raw(p.raw.response), TimelineRecords(p.timeline), p.complete)
  }

  /** Both writers end the same way: manifest, removal of the working metadata, marker; then the rename. */
  function ManifestOps(t: Target, m: Manifest): seq<FileOp> {
    [Write(ManifestName, ManifestJson(m)), Unlink(MetaPartial), Write(ReadyName, ReadyJson(t.code, ManifestJson(m)))]
  }

  /** Finalization of a live capture whose partial files hold p. */
  function LiveOps(t: Target, p: Publication): seq<FileOp> {
    [Replace(LivePartial(RequestRaw), t.FileNames().request),
     Replace(LivePartial(ResponseRaw), t.FileNames().response),
     Replace(LivePartial(TimelineKey), t.FileNames().timeline)]
    + ManifestOps(t, ManifestOf(t, p))
  }

  /** What a live capture has in its staging directory once its files are closed. */
  function ClosedLiveFiles(p: Publication): Files {
    map[MetaPartial := MetaJson,
        LivePartial(RequestRaw) := Raw(p.raw.request),
        LivePartial(ResponseRaw) := Raw(p.raw.response),
        LivePartial(TimelineKey) := TimelineRecords(p.timeline)]
  }

  /** The one-shot archive starts in an empty staging directory. */
  function ArchiveOps(t: Target, p: Publication): seq<FileOp> {
    var request, response, timeline :=
      StampedPartial(RequestRaw, t.requestStamp), StampedPartial(ResponseRaw, t.responseStamp), StampedPartial(TimelineKey, t.requestStamp);
    [Write(MetaPartial, MetaJson),
     Write(request, Raw(p.raw.request)),
     Write(response, Raw(p.raw.response)),
     Write(timeline, TimelineRecords(p.timeline)),
     Replace(request, t.FileNames().request),
     Replace(response, t.FileNames().response),
     Replace(timeline, t.FileNames().timeline)]
    + ManifestOps(t, ManifestOf(t, p))
  }

  /** The spool after the writer at t did the first k of its operations; the last one, after all of ops, is the
      rename of the staging directory. */
  predicate CanCrashAfter(s: Spool, t: Target, ops: seq<FileOp>, k: nat) {
    && t.Staging() in s && k <= |ops| + 1
    && CanDoAll(s[t.Staging()], if k <= |ops| then ops[..k] else ops)
    && (k == |ops| + 1 ==> t.Visible() !in s)
  }

  function CrashAfter(s: Spool, t: Target, ops: seq<FileOp>, k: nat): Spool
    requires CanCrashAfter(s, t, ops, k)
  {
    if k <= |ops| then s[t.Staging() := DoAll(s[t.Staging()], ops[..k])]
    else (s - {t.Staging()})[t.Visible() := DoAll(s[t.Staging()], ops)]
  }

  // ---------------------------------------------------------------- the parser side

  /** The directories the parser picks up. */
  function DiscoverReadyJobs(s: Spool): set<Path> {
    set p | p in s && p.name.Final? && ReadyName in s[p]
  }

  datatype LoadError = NotReady | BadMarker | BadManifest | MissingArtifact | TooLarge | HashMismatch

  datatype Loaded = LoadedJob(request: seq<byte>, response: seq<byte>, timeline: seq<Chunk>) | Rejected(error: LoadError)

  function LoadSpoolJob(s: Spool, dir: Path, maxBytes: nat): Loaded {
    if dir !in s || ReadyName !in s[dir] then Rejected(NotReady)
    else if ManifestName !in s[dir] then Rejected(MissingArtifact)
    else
      var ready, manifest := s[dir][ReadyName], s[dir][ManifestName];
      if !ready.ReadyJson? || ready.code != dir.name.code || ready.manifestHash != manifest then Rejected(BadMarker)
      else if !manifest.ManifestJson? || manifest.manifest.code != dir.name.code then Rejected(BadManifest)
      else LoadArtifacts(s[dir], manifest.manifest, maxBytes)
  }

  function LoadArtifacts(files: Files, m: Manifest, maxBytes: nat): Loaded {
    if m.files.request !in files || m.files.response !in files || m.files.timeline !in files then Rejected(MissingArtifact)
    else
      var request, response, timeline := files[m.files.request], files[m.files.response], files[m.files.timeline];
      if !request.Raw? || !response.Raw? || !timeline.TimelineRecords? then Rejected(MissingArtifact)
      else if |request.bytes| + |response.bytes| > maxBytes then Rejected(TooLarge)
      else if request != m.requestHash || response != m.responseHash || timeline != m.timelineHash then Rejected(HashMismatch)
      else LoadedJob(request.bytes, response.bytes, timeline.chunks)
  }

  // ---------------------------------------------------------------- crash points

  /** The files of a complete job directory. */
  function PublishedFiles(t: Target, p: Publication): Files {
    map[t.FileNames().request := Raw(p.raw.request),
        t.FileNames().response := Raw(p.raw.response),
        t.FileNames().timeline := TimelineRecords(p.timeline),
        ManifestName := ManifestJson(ManifestOf(t, p)),
        ReadyName := ReadyJson(t.code, ManifestJson(ManifestOf(t, p)))]
  }

  /** The operations turn the initial staging contents into exactly the complete directory. */
  predicate Publishes(t: Target, p: Publication, initial: Files, ops: seq<FileOp>) {
    CanDoAll(initial, ops) && DoAll(initial, ops) == PublishedFiles(t, p)
  }

  lemma {:induction false} DoAllAppend(files: Files, a: seq<FileOp>, b: seq<FileOp>)
    requires CanDoAll(files, a) && CanDoAll(DoAll(files, a), b)
    ensures CanDoAll(files, a + b) && DoAll(files, a + b) == DoAll(DoAll(files, a), b)
    decreases |a|
  {
    if a == [] {
      assert a + b == b;
    } else {
      assert (a + b)[1..] == a[1..] + b;
      DoAllAppend(Do(files, a[0]), a[1..], b);
    }
  }

  lemma DoOne(files: Files, op: FileOp)
    requires CanDo(files, op)
    ensures CanDoAll(files, [op]) && DoAll(files, [op]) == Do(files, op)
  {
    assert [op][1..] == [];
  }

  lemma {:induction false} PrefixRuns(files: Files, ops: seq<FileOp>, k: nat)
    requires CanDoAll(files, ops) && k <= |ops|
    ensures CanDoAll(files, ops[..k])
    decreases k
  {
    if k > 0 {
      assert ops[..k][1..] == ops[1..][..k - 1];
      PrefixRuns(Do(files, ops[0]), ops[1..], k - 1);
    }
  }

  /** The common end of both writers. */
  lemma ManifestOpsPublish(t: Target, p: Publication, files: Files)
    requires files == map[MetaPartial := MetaJson,
                          t.FileNames().request := Raw(p.raw.request),
                          t.FileNames().response := Raw(p.raw.response),
                          t.FileNames().timeline := TimelineRecords(p.timeline)]
    ensures Publishes(t, p, files, ManifestOps(t, ManifestOf(t, p)))
  {
    var m := ManifestOf(t, p);
    var a := files[ManifestName := ManifestJson(m)];
    var b := a - {MetaPartial};
    var c := b[ReadyName := ReadyJson(t.code, ManifestJson(m))];
    Chain3(files, Write(ManifestName, ManifestJson(m)), Unlink(MetaPartial), Write(ReadyName, ReadyJson(t.code, ManifestJson(m))));
    assert c == PublishedFiles(t, p);
  }

  lemma Chain3(files: Files, x: FileOp, y: FileOp, z: FileOp)
    requires CanDo(files, x) && CanDo(Do(files, x), y) && CanDo(Do(Do(files, x), y), z)
    ensures CanDoAll(files, [x, y, z]) && DoAll(files, [x, y, z]) == Do(Do(Do(files, x), y), z)
  {
    DoOne(files, x);
    DoOne(Do(files, x), y);
    DoOne(Do(Do(files, x), y), z);
    DoAllAppend(files, [x], [y]);
    DoAllAppend(files, [x] + [y], [z]);
    assert [x] + [y] + [z] == [x, y, z];
  }

  lemma LivePublishes(t: Target, p: Publication)
    ensures Publishes(t, p, ClosedLiveFiles(p), LiveOps(t, p))
  {
    var f := ClosedLiveFiles(p);
    var n := t.FileNames();
    var x, y, z := Replace(LivePartial(RequestRaw), n.request), Replace(LivePartial(ResponseRaw), n.response),
                   Replace(LivePartial(TimelineKey), n.timeline);
    Chain3(f, x, y, z);
    var g := Do(Do(Do(f, x), y), z);
    ManifestOpsPublish(t, p, g);
    DoAllAppend(f, [x, y, z], ManifestOps(t, ManifestOf(t, p)));
  }

  lemma ArchivePublishes(t: Target, p: Publication)
    ensures Publishes(t, p, map[], ArchiveOps(t, p))
  {
    var n := t.FileNames();
    var request, response, timeline :=
      StampedPartial(RequestRaw, t.requestStamp), StampedPartial(ResponseRaw, t.responseStamp), StampedPartial(TimelineKey, t.requestStamp);
    var w0, w1, w2, w3 := Write(MetaPartial, MetaJson), Write(request, Raw(p.raw.request)), Write(response, Raw(p.raw.response)),
                          Write(timeline, TimelineRecords(p.timeline));
    var x, y, z := Replace(request, n.request), Replace(response, n.response), Replace(timeline, n.timeline);
    var meta: Files := Do(map[], w0);
    DoOne(map[], w0);
    Chain3(meta, w1, w2, w3);
    var written := Do(Do(Do(meta, w1), w2), w3);
    Chain3(written, x, y, z);
    var moved := Do(Do(Do(written, x), y), z);
    ManifestOpsPublish(t, p, moved);
    DoAllAppend(map[], [w0], [w1, w2, w3]);
    DoAllAppend(map[], [w0] + [w1, w2, w3], [x, y, z]);
    DoAllAppend(map[], [w0] + [w1, w2, w3] + [x, y, z], ManifestOps(t, ManifestOf(t, p)));
    assert [w0] + [w1, w2, w3] + [x, y, z] + ManifestOps(t, ManifestOf(t, p)) == ArchiveOps(t, p);
  }

  /** Whatever the crash point, the parser discovers the job only once the final rename is done. Before that it
      sees exactly the old jobs; after it the new one too, without any partial file, and loading returns the
      captured bytes and records unless they exceed the parser's size limit. No other directory changes. */
  lemma NothingVisibleBeforeTheRename(s: Spool, t: Target, p: Publication, ops: seq<FileOp>, k: nat)
    requires t.Staging() in s && t.Visible() !in s && k <= |ops| + 1
    requires Publishes(t, p, s[t.Staging()], ops)
    ensures CanCrashAfter(s, t, ops, k)
    ensures var c := CrashAfter(s, t, ops, k);
            && (k <= |ops| ==> DiscoverReadyJobs(c) == DiscoverReadyJobs(s) && c - {t.Staging()} == s - {t.Staging()})
            && (k == |ops| + 1 ==>
                  && DiscoverReadyJobs(c) == DiscoverReadyJobs(s) + {t.Visible()}
                  && c - {t.Visible()} == s - {t.Staging()}
                  && (forall n | n in c[t.Visible()] :: !IsPartial(n))
                  && forall maxBytes: nat ::
                       LoadSpoolJob(c, t.Visible(), maxBytes) ==
                       if p.raw.Size() <= maxBytes then LoadedJob(p.raw.request, p.raw.response, p.timeline)
                       else Rejected(TooLarge))
  {
    hide CanDoAll, DoAll;
    if k <= |ops| {
      PrefixRuns(s[t.Staging()], ops, k);
    } else {
      PublishedLoads(CrashAfter(s, t, ops, k), t, p);
    }
  }

  lemma PublishedLoads(c: Spool, t: Target, p: Publication)
    requires t.Visible() in c && c[t.Visible()] == PublishedFiles(t, p)
    ensures ReadyName in c[t.Visible()] && forall n | n in c[t.Visible()] :: !IsPartial(n)
    ensures forall maxBytes: nat ::
              LoadSpoolJob(c, t.Visible(), maxBytes) ==
              if p.raw.Size() <= maxBytes then LoadedJob(p.raw.request, p.raw.response, p.timeline) else Rejected(TooLarge)
  {
    var files := c[t.Visible()];
    assert files[t.FileNames().request] == Raw(p.raw.request);
    assert files[t.FileNames().response] == Raw(p.raw.response);
    assert files[t.FileNames().timeline] == TimelineRecords(p.timeline);
  }

  /** The directory holds these bytes and records under a manifest that names its own code and their hashes, and a
      marker that names the code and the manifest's hash. */
  predicate Authentic(files: Files, code: string, request: seq<byte>, response: seq<byte>, timeline: seq<Chunk>) {
    && ManifestName in files && files[ManifestName].ManifestJson?
    && var m := files[ManifestName].manifest;
    && ReadyName in files && files[ReadyName] == ReadyJson(code, files[ManifestName]) && m.code == code
    && m.files.request in files && files[m.files.request] == Raw(request) && m.requestHash == Raw(request)
    && m.files.response in files && files[m.files.response] == Raw(response) && m.responseHash == Raw(response)
    && m.files.timeline in files && files[m.files.timeline] == TimelineRecords(timeline) && m.timelineHash == TimelineRecords(timeline)
  }

  /** A directory loads exactly if it is authentic and within the size limit, and gives just what it holds. */
  lemma LoadsExactlyTheAuthentic(s: Spool, dir: Path, maxBytes: nat, request: seq<byte>, response: seq<byte>, timeline: seq<Chunk>)
    requires dir.name.Final?
    ensures LoadSpoolJob(s, dir, maxBytes) == LoadedJob(request, response, timeline) <==>
            dir in s && Authentic(s[dir], dir.name.code, request, response, timeline) && |request| + |response| <= maxBytes
  {
  }

  /** The directory of a published job after one of its files was changed or removed. */
  predicate OneFileDiffers(c: Spool, t: Target, p: Publication, n: Name) {
    && t.Visible() in c
    && var files, original := c[t.Visible()], PublishedFiles(t, p);
    && n in original && (n in files ==> files[n] != original[n])
    && forall k | k in original && k != n :: k in files && files[k] == original[k]
  }

  /** A published job of which any single file was changed or lost is never loaded, whatever else lies beside it. */
  lemma DamagedJobIsRejected(c: Spool, t: Target, p: Publication, n: Name, maxBytes: nat)
    requires OneFileDiffers(c, t, p, n)
    ensures LoadSpoolJob(c, t.Visible(), maxBytes).Rejected?
  {
    var files, m := c[t.Visible()], ManifestOf(t, p);
    var names := t.FileNames();
    assert n in {names.request, names.response, names.timeline, ManifestName, ReadyName};
    if n == ReadyName || n == ManifestName {
      assert m.code == t.code;
    } else {
      assert files[ManifestName] == ManifestJson(m);
      assert files[ReadyName] == ReadyJson(t.code, ManifestJson(m));
      ArtifactsRejected(files, t, p, n, maxBytes);
    }
  }

  lemma ArtifactsRejected(files: Files, t: Target, p: Publication, n: Name, maxBytes: nat)
    requires n == t.FileNames().request || n == t.FileNames().response || n == t.FileNames().timeline
    requires n in files ==> files[n] != PublishedFiles(t, p)[n]
    ensures LoadArtifacts(files, ManifestOf(t, p), maxBytes).Rejected?
  {
  }

  /** From the relay to the parser: once a connection's live capture is published, loading it returns the stored
      bytes of each direction and the receive events with their drain marks, as the relay recorded them. */
  lemma CaptureReachesParser(states: seq<Recorder>, steps: seq<Step>, i: nat, s: Spool, t: Target, maxBytes: nat)
    requires Run(states, steps) && i < |states| && states[i].published.Some?
    requires t.Staging() in s && t.Visible() !in s && s[t.Staging()] == ClosedLiveFiles(states[i].published.value)
    requires states[i].job.kept.Size() <= maxBytes
    ensures var ops, j := LiveOps(t, states[i].published.value), states[i].job;
            && CanCrashAfter(s, t, ops, |ops| + 1)
            && LoadSpoolJob(CrashAfter(s, t, ops, |ops| + 1), t.Visible(), maxBytes)
               == LoadedJob(j.kept.request, j.kept.response, j.chunks)
  {
    hide Run, LiveOps, Publishes, CrashAfter, CanCrashAfter, LoadSpoolJob, ClosedLiveFiles;
    var p := states[i].published.value;
    RecorderTheorems.PublishedOnlyComplete(states, steps, i);
    LivePublishes(t, p);
    NothingVisibleBeforeTheRename(s, t, p, LiveOps(t, p), |LiveOps(t, p)| + 1);
  }
}
