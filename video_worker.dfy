/**
 * The assembly worker: for one ended session it lists the participants,
 * loads each participant's chunks in ascending chunk-number order, downloads
 * them into a session-scoped scratch directory, writes an ffmpeg concat list,
 * merges, uploads the merged file under a fixed final key, stores one
 * FinalRecording row and publishes one completion event, then removes the
 * scratch directory.
 *
 * The datastore, blob storage, ffmpeg and the pub/sub channel are external.
 * The tables the worker reads are constants of the Worker object, the upload
 * result is an oracle function, and every call the worker makes (reads
 * included) is one entry of an append-only effect log. Any call may fail:
 * `faults` holds the indices (counted over the object's lifetime) of the calls
 * that throw. A failure aborts the whole job, so a run performs exactly a
 * prefix of the effects of a successful run, the pure function `Plan`.
 */
module VideoWorker {
  import opened Common

  datatype ParticipantRow = ParticipantRow(id: string, sessionId: string)

  /** The columns of a recordingChunk row that the worker reads. */
  datatype ChunkRow = ChunkRow(participantId: string, chunkNumber: int, filePath: string)

  /** What the blob store reports for an upload; durationMs is already rounded. */
  datatype UploadResult = UploadResult(publicId: string, bytes: int, durationMs: int)

  datatype FinalRecording = FinalRecording(
    sessionId: string,
    participantId: string,
    filePath: string,
    fileSize: int,
    durationMs: int,
    processingStatus: string)

  /** The JSON envelope published on the processing-events channel. */
  datatype CompletionEvent = CompletionEvent(event: string, sessionId: string, participantId: string)

  datatype Effect =
    | MakeDir(path: string)
    | FindParticipants(sessionId: string)
    | FindChunks(participantId: string)
    | Download(publicId: string, localPath: string)
    | WriteFile(path: string, content: string)
    | Concat(listPath: string, outputPath: string)
    | Upload(localPath: string, publicId: string)
    | CreateFinal(row: FinalRecording)
    | Publish(channel: string, event: CompletionEvent)
    | RemoveDir(path: string)

  /** What the queue sees: a return value marks the job completed, a throw marks it failed. */
  datatype JobOutcome = JobCompleted(status: string, sessionId: string) | JobFailed

  const Channel := "processing-events"
  const CompletedEvent := "recording:completed"

  // ---------------------------------------------------------------------------
  // Names and paths

  /** The scratch directory of a session (the worker's `temp/<sessionId>`). */
  function TempDir(sessionId: string): string {
    "temp/" + sessionId
  }

  /** `p` without its trailing separators. */
  function TrimTrailingSlashes(p: string): (r: string)
    ensures r == [] || r[|r| - 1] != '/'
    decreases |p|
  {
    if p != [] && p[|p| - 1] == '/' then TrimTrailingSlashes(p[..|p| - 1]) else p
  }

  /** The text after the last separator of `p`. */
  function LastSegment(p: string): (b: string)
    ensures '/' !in b
    decreases |p|
  {
    if p == [] || p[|p| - 1] == '/' then []
    else LastSegment(p[..|p| - 1]) + [p[|p| - 1]]
  }

  /** `path.basename(p)`: the last segment, trailing separators ignored. */
  function Basename(p: string): (b: string)
    ensures '/' !in b
  {
    LastSegment(TrimTrailingSlashes(p))
  }

  /** A name without separators is its own basename. */
  lemma {:induction false} BasenameOfName(p: string)
    requires '/' !in p
    ensures Basename(p) == p
    decreases |p|
  {
    if p != [] {
      assert p[|p| - 1] in p;
      BasenameOfName(p[..|p| - 1]);
      assert p[..|p| - 1] + [p[|p| - 1]] == p;
    }
  }

  function LocalPath(dir: string, c: ChunkRow): string {
    dir + "/" + Basename(c.filePath) + ".webm"
  }

  function FileListPath(dir: string, participantId: string): string {
    dir + "/filelist_" + participantId + ".txt"
  }

  function FinalOutputPath(dir: string, participantId: string): string {
    dir + "/final_" + participantId + ".webm"
  }

  /** The blob key of a participant's merged recording: in the session's folder, ending in the participant id. */
  function FinalKey(sessionId: string, participantId: string): (key: string)
  {
    "podrec/sessions/" + sessionId + "/final_" + participantId
  }

  /** One concat-list line per local file. */
  function ConcatLines(paths: seq<string>): (lines: seq<string>)
    ensures |lines| == |paths|
    ensures forall i :: 0 <= i < |paths| ==> lines[i] == "file '" + paths[i] + "'"
    decreases |paths|
  {
    if paths == [] then [] else ["file '" + paths[0] + "'"] + ConcatLines(paths[1..])
  }

  /**
   * The content of the ffmpeg concat list. When no path holds a newline, reading it back
   * line by line gives one `file '<path>'` line per chunk, in order, with no empty last line.
   */
  function ConcatList(paths: seq<string>): string {
    Join(ConcatLines(paths), '\n')
  }

  // ---------------------------------------------------------------------------
  // The two queries

  /** The `where` filters of the two queries and of the participants that get a recording. */
  function InSession(sessionId: string): ParticipantRow -> bool {
    (p: ParticipantRow) => p.sessionId == sessionId
  }

  function OfParticipant(participantId: string): ChunkRow -> bool {
    (c: ChunkRow) => c.participantId == participantId
  }

  function HasChunks(chunkTable: seq<ChunkRow>): ParticipantRow -> bool {
    (p: ParticipantRow) => ChunksOf(chunkTable, p.id) != []
  }

  /** `participant.findMany({ where: { sessionId } })`, in table order. */
  function ParticipantsOf(table: seq<ParticipantRow>, sessionId: string): seq<ParticipantRow> {
    Filter(table, InSession(sessionId))
  }

  predicate SortedByNumber(cs: seq<ChunkRow>) {
    forall i, j :: 0 <= i < j < |cs| ==> cs[i].chunkNumber <= cs[j].chunkNumber
  }

  /** A row no later than every row of a sorted sequence may go in front of it. */
  lemma SortedCons(h: ChunkRow, t: seq<ChunkRow>)
    requires SortedByNumber(t)
    requires forall x :: x in t ==> h.chunkNumber <= x.chunkNumber
    ensures SortedByNumber([h] + t)
  {
    forall i, j | 0 <= i < j < |[h] + t|
      ensures ([h] + t)[i].chunkNumber <= ([h] + t)[j].chunkNumber
    {
      if i > 0 {
        assert ([h] + t)[i] == t[i - 1] && ([h] + t)[j] == t[j - 1];
      } else {
        assert ([h] + t)[j] in t;
      }
    }
  }

  /** The rows after the head of a sorted sequence, plus a later row, all come no earlier than the head. */
  lemma InsertTailBound(c: ChunkRow, cs: seq<ChunkRow>, tail: seq<ChunkRow>)
    requires SortedByNumber(cs) && cs != [] && cs[0].chunkNumber < c.chunkNumber
    requires multiset(tail) == multiset(cs[1..]) + multiset{c}
    ensures forall x :: x in tail ==> cs[0].chunkNumber <= x.chunkNumber
  {
    forall x | x in tail
      ensures cs[0].chunkNumber <= x.chunkNumber
    {
      assert x in multiset(tail);
      if x != c {
        assert x in multiset(cs[1..]);
        var k :| 0 <= k < |cs[1..]| && cs[1..][k] == x;
        assert cs[k + 1] == x;
      }
    }
  }

  function Insert(c: ChunkRow, cs: seq<ChunkRow>): (r: seq<ChunkRow>)
    requires SortedByNumber(cs)
    ensures SortedByNumber(r)
    ensures multiset(r) == multiset(cs) + multiset{c}
    decreases |cs|
  {
    if cs == [] || c.chunkNumber <= cs[0].chunkNumber then
      SortedCons(c, cs);
      [c] + cs
    else
      var tail := Insert(c, cs[1..]);
      assert cs == [cs[0]] + cs[1..];
      InsertTailBound(c, cs, tail);
      SortedCons(cs[0], tail);
      [cs[0]] + tail
  }

  /** Orders rows by ascending chunk number (ties keep table order). */
  function SortByNumber(cs: seq<ChunkRow>): (r: seq<ChunkRow>)
    ensures SortedByNumber(r)
    ensures multiset(r) == multiset(cs)
    decreases |cs|
  {
    if cs == [] then []
    else
      assert cs == [cs[0]] + cs[1..];
      Insert(cs[0], SortByNumber(cs[1..]))
  }

  /** `recordingChunk.findMany({ where: { participantId }, orderBy: { chunkNumber: 'asc' } })`. */
  function ChunksOf(table: seq<ChunkRow>, participantId: string): seq<ChunkRow> {
    SortByNumber(Filter(table, OfParticipant(participantId)))
  }

  // ---------------------------------------------------------------------------
  // The effects of a successful run

  function LocalPaths(dir: string, cs: seq<ChunkRow>): (paths: seq<string>)
    ensures |paths| == |cs|
    decreases |cs|
  {
    if cs == [] then [] else LocalPaths(dir, cs[..|cs| - 1]) + [LocalPath(dir, cs[|cs| - 1])]
  }

  /** One download per chunk, each into its local path, in chunk order. */
  function Downloads(dir: string, cs: seq<ChunkRow>): (es: seq<Effect>)
    ensures |es| == |cs|
    decreases |cs|
  {
    if cs == [] then []
    else Downloads(dir, cs[..|cs| - 1]) + [Download(cs[|cs| - 1].filePath, LocalPath(dir, cs[|cs| - 1]))]
  }

  /** The row the worker stores for a participant, from the upload oracle's answer. */
  function FinalRow(sessionId: string, participantId: string, upload: (string, string) -> UploadResult): FinalRecording {
    var res := upload(FinalOutputPath(TempDir(sessionId), participantId), FinalKey(sessionId, participantId));
    FinalRecording(sessionId, participantId, res.publicId, res.bytes, res.durationMs, "completed")
  }

  /** Concat list, merge, upload, row, event: the steps after the downloads. */
  function Assembly(sessionId: string, participantId: string, paths: seq<string>,
                    upload: (string, string) -> UploadResult): seq<Effect>
  {
    var dir := TempDir(sessionId);
    [ WriteFile(FileListPath(dir, participantId), ConcatList(paths)),
      Concat(FileListPath(dir, participantId), FinalOutputPath(dir, participantId)),
      Upload(FinalOutputPath(dir, participantId), FinalKey(sessionId, participantId)),
      CreateFinal(FinalRow(sessionId, participantId, upload)),
      Publish(Channel, CompletionEvent(CompletedEvent, sessionId, participantId)) ]
  }

  /** The calls made for one participant whose chunk query returns `cs`. */
  function ParticipantPlan(sessionId: string, participantId: string, cs: seq<ChunkRow>,
                           upload: (string, string) -> UploadResult): seq<Effect>
  {
    var dir := TempDir(sessionId);
    [FindChunks(participantId)]
      + if cs == [] then [] else Downloads(dir, cs) + Assembly(sessionId, participantId, LocalPaths(dir, cs), upload)
  }

  /** The calls made for one participant of the session. */
  function PlanFor(sessionId: string, p: ParticipantRow, chunkTable: seq<ChunkRow>,
                   upload: (string, string) -> UploadResult): seq<Effect>
  {
    ParticipantPlan(sessionId, p.id, ChunksOf(chunkTable, p.id), upload)
  }

  /** The calls made for the participants, one participant after the other in findMany order. */
  function PartsPlan(sessionId: string, ps: seq<ParticipantRow>, chunkTable: seq<ChunkRow>,
                     upload: (string, string) -> UploadResult): seq<Effect>
    decreases |ps|
  {
    if ps == [] then []
    else PartsPlan(sessionId, ps[..|ps| - 1], chunkTable, upload)
           + PlanFor(sessionId, ps[|ps| - 1], chunkTable, upload)
  }

  /** Every call of a run in which nothing fails, in order. */
  function Plan(sessionId: string, participantTable: seq<ParticipantRow>, chunkTable: seq<ChunkRow>,
                upload: (string, string) -> UploadResult): seq<Effect>
  {
    [MakeDir(TempDir(sessionId)), FindParticipants(sessionId)]
      + PartsPlan(sessionId, ParticipantsOf(participantTable, sessionId), chunkTable, upload)
      + [RemoveDir(TempDir(sessionId))]
  }

  /** Extending the downloaded prefix of the chunks by one. */
  lemma DownloadsPrefix(dir: string, cs: seq<ChunkRow>, j: nat)
    requires j < |cs|
    ensures Downloads(dir, cs[..j + 1]) == Downloads(dir, cs[..j]) + [Download(cs[j].filePath, LocalPath(dir, cs[j]))]
    ensures LocalPaths(dir, cs[..j + 1]) == LocalPaths(dir, cs[..j]) + [LocalPath(dir, cs[j])]
  {
    assert cs[..j + 1][..j] == cs[..j];
  }

  lemma {:induction false} DownloadsConcat(dir: string, a: seq<ChunkRow>, b: seq<ChunkRow>)
    ensures Downloads(dir, a + b) == Downloads(dir, a) + Downloads(dir, b)
    decreases |b|
  {
    if b == [] {
      assert a + b == a;
    } else {
      assert (a + b)[..|a + b| - 1] == a + b[..|b| - 1];
      DownloadsConcat(dir, a, b[..|b| - 1]);
    }
  }

  lemma PartsPlanSnoc(sessionId: string, ps: seq<ParticipantRow>, i: nat, chunkTable: seq<ChunkRow>,
                      upload: (string, string) -> UploadResult)
    requires i < |ps|
    ensures PartsPlan(sessionId, ps[..i + 1], chunkTable, upload)
         == PartsPlan(sessionId, ps[..i], chunkTable, upload) + PlanFor(sessionId, ps[i], chunkTable, upload)
  {
    assert ps[..i + 1][..i] == ps[..i];
  }

  lemma {:induction false} PartsPlanConcat(sessionId: string, a: seq<ParticipantRow>, b: seq<ParticipantRow>,
                                           chunkTable: seq<ChunkRow>, upload: (string, string) -> UploadResult)
    ensures PartsPlan(sessionId, a + b, chunkTable, upload)
         == PartsPlan(sessionId, a, chunkTable, upload) + PartsPlan(sessionId, b, chunkTable, upload)
    decreases |b|
  {
    if b == [] {
      assert a + b == a;
    } else {
      var ab, init, last := a + b, b[..|b| - 1], b[|b| - 1];
      assert ab[..|ab| - 1] == a + init && ab[|ab| - 1] == last;
      PartsPlanConcat(sessionId, a, init, chunkTable, upload);
      var pa, pi, pl := PartsPlan(sessionId, a, chunkTable, upload), PartsPlan(sessionId, init, chunkTable, upload),
                        PlanFor(sessionId, last, chunkTable, upload);
      assert PartsPlan(sessionId, ab, chunkTable, upload) == (pa + pi) + pl;
      assert PartsPlan(sessionId, b, chunkTable, upload) == pi + pl;
      ConcatAssoc(pa, pi, pl);
    }
  }

  // ---------------------------------------------------------------------------
  // Failures

  /** The position of the first failing call among the `n` calls numbered from `from`, or `n`. */
  function FirstFault(faults: set<nat>, from: nat, n: nat): (k: nat)
    ensures k <= n
    ensures forall i :: from <= i < from + k ==> i !in faults
    ensures k < n ==> from + k in faults
    decreases n
  {
    if n == 0 || from in faults then 0 else 1 + FirstFault(faults, from + 1, n - 1)
  }

  /**
   * Attempting the calls of `plan`, the first numbered `c0`, on top of history
   * `log0` ends in history `log` after `calls` calls with success `ok`: a call
   * that does not fail is logged and the run goes on; the first failing call is
   * counted, not logged, and ends the run.
   */
  ghost predicate Ran(faults: set<nat>, plan: seq<Effect>, c0: nat, log0: seq<Effect>,
                      ok: bool, log: seq<Effect>, calls: nat)
    decreases |plan|
  {
    if plan == [] then ok && log == log0 && calls == c0
    else if c0 in faults then !ok && log == log0 && calls == c0 + 1
    else Ran(faults, plan[1..], c0 + 1, log0 + [plan[0]], ok, log, calls)
  }

  /** A run performs the prefix of the plan before its first failing call. */
  lemma {:induction false} RanFirstFault(faults: set<nat>, plan: seq<Effect>, c0: nat, log0: seq<Effect>,
                                         ok: bool, log: seq<Effect>, calls: nat)
    ensures Ran(faults, plan, c0, log0, ok, log, calls) <==>
            var k := FirstFault(faults, c0, |plan|);
            log == log0 + plan[..k] && (ok <==> k == |plan|) && calls == c0 + (if ok then k else k + 1)
    decreases |plan|
  {
    if plan == [] {
      assert log0 + plan[..0] == log0;
    } else if c0 in faults {
      assert log0 + plan[..0] == log0;
    } else {
      RanFirstFault(faults, plan[1..], c0 + 1, log0 + [plan[0]], ok, log, calls);
      var k := FirstFault(faults, c0 + 1, |plan| - 1);
      assert log0 + [plan[0]] + plan[1..][..k] == log0 + plan[..k + 1];
    }
  }

  lemma RanNothing(faults: set<nat>, c0: nat, log0: seq<Effect>)
    ensures Ran(faults, [], c0, log0, true, log0, c0)
  {
  }

  /** Running `a` to completion and then `b` is running `a + b`. */
  lemma {:induction false} RanThen(faults: set<nat>, a: seq<Effect>, b: seq<Effect>, c0: nat, log0: seq<Effect>,
                                   log1: seq<Effect>, c1: nat, ok: bool, log2: seq<Effect>, c2: nat)
    requires Ran(faults, a, c0, log0, true, log1, c1)
    requires Ran(faults, b, c1, log1, ok, log2, c2)
    ensures Ran(faults, a + b, c0, log0, ok, log2, c2)
    decreases |a|
  {
    if a == [] {
      assert a + b == b;
    } else {
      assert (a + b)[1..] == a[1..] + b;
      RanThen(faults, a[1..], b, c0 + 1, log0 + [a[0]], log1, c1, ok, log2, c2);
    }
  }

  /** A run of `a` that failed is a run of `a + b` that failed at the same call. */
  lemma {:induction false} RanStop(faults: set<nat>, a: seq<Effect>, b: seq<Effect>, c0: nat, log0: seq<Effect>,
                                   log1: seq<Effect>, c1: nat)
    requires Ran(faults, a, c0, log0, false, log1, c1)
    ensures Ran(faults, a + b, c0, log0, false, log1, c1)
    decreases |a|
  {
    if c0 !in faults {
      assert (a + b)[1..] == a[1..] + b;
      RanStop(faults, a[1..], b, c0 + 1, log0 + [a[0]], log1, c1);
    }
  }

  /** Splits the participants' calls around participant `i`. */
  lemma PartsPlanSplit(sessionId: string, ps: seq<ParticipantRow>, i: nat, chunkTable: seq<ChunkRow>,
                       upload: (string, string) -> UploadResult)
    requires i < |ps|
    ensures PartsPlan(sessionId, ps[..i + 1], chunkTable, upload)
         == PartsPlan(sessionId, ps[..i], chunkTable, upload) + PlanFor(sessionId, ps[i], chunkTable, upload)
    ensures PartsPlan(sessionId, ps, chunkTable, upload)
         == PartsPlan(sessionId, ps[..i + 1], chunkTable, upload) + PartsPlan(sessionId, ps[i + 1..], chunkTable, upload)
  {
    PartsPlanSnoc(sessionId, ps, i, chunkTable, upload);
    PartsPlanConcat(sessionId, ps[..i + 1], ps[i + 1..], chunkTable, upload);
    assert ps[..i + 1] + ps[i + 1..] == ps;
  }

  /** One piece of a loop's run extends the run of the pieces before it; a failure fails the whole loop. */
  lemma RanStep(faults: set<nat>, done: seq<Effect>, here: seq<Effect>, next: seq<Effect>,
                rest: seq<Effect>, whole: seq<Effect>, c0: nat, log0: seq<Effect>,
                log1: seq<Effect>, c1: nat, ok: bool, log2: seq<Effect>, c2: nat)
    requires next == done + here && whole == next + rest
    requires Ran(faults, done, c0, log0, true, log1, c1)
    requires Ran(faults, here, c1, log1, ok, log2, c2)
    ensures ok ==> Ran(faults, next, c0, log0, true, log2, c2)
    ensures !ok ==> Ran(faults, whole, c0, log0, false, log2, c2)
  {
    RanThen(faults, done, here, c0, log0, log1, c1, ok, log2, c2);
    if !ok {
      RanStop(faults, next, rest, c0, log0, log2, c2);
    }
  }

  class Worker {
    const participantTable: seq<ParticipantRow>
    const chunkTable: seq<ChunkRow>
    const upload: (string, string) -> UploadResult
    const faults: set<nat>
    /** Every call that succeeded, in order: the worker's observable history. */
    var log: seq<Effect>
    /** How many calls have been made (the index of the next one). */
    var calls: nat

    constructor (participantTable: seq<ParticipantRow>, chunkTable: seq<ChunkRow>,
                 upload: (string, string) -> UploadResult, faults: set<nat>)
      ensures this.participantTable == participantTable && this.chunkTable == chunkTable
      ensures this.upload == upload && this.faults == faults
      ensures log == [] && calls == 0
    {
      this.participantTable := participantTable;
      this.chunkTable := chunkTable;
      this.upload := upload;
      this.faults := faults;
      log := [];
      calls := 0;
    }

    /** One external call: it either succeeds and is logged, or throws. */
    method Perform(e: Effect) returns (ok: bool)
      modifies this
      ensures calls == old(calls) + 1
      ensures ok == (old(calls) !in faults)
      ensures log == if ok then old(log) + [e] else old(log)
    {
      ok := calls !in faults;
      if ok {
        log := log + [e];
      }
      calls := calls + 1;
    }

    /** Performs the call after a completed stretch `done` of the current run. */
    method Step(e: Effect, ghost done: seq<Effect>, ghost c0: nat, ghost log0: seq<Effect>) returns (ok: bool)
      requires Ran(faults, done, c0, log0, true, log, calls)
      modifies this
      ensures Ran(faults, done + [e], c0, log0, ok, log, calls)
    {
      ghost var c1, log1 := calls, log;
      ok := Perform(e);
      RanThen(faults, done, [e], c0, log0, log1, c1, ok, log, calls);
    }

    /** The inner loop: downloads the chunks in order and collects their local paths. */
    method DownloadChunks(dir: string, chunks: seq<ChunkRow>) returns (ok: bool, localChunkPaths: seq<string>)
      modifies this
      ensures Ran(faults, Downloads(dir, chunks), old(calls), old(log), ok, log, calls)
      ensures ok ==> localChunkPaths == LocalPaths(dir, chunks)
    {
      ghost var c0, log0 := calls, log;
      RanNothing(faults, c0, log0);
      localChunkPaths := [];
      var j := 0;
      while j < |chunks|
        invariant 0 <= j <= |chunks|
        invariant Ran(faults, Downloads(dir, chunks[..j]), c0, log0, true, log, calls)
        invariant localChunkPaths == LocalPaths(dir, chunks[..j])
      {
        var localPath := LocalPath(dir, chunks[j]);
        DownloadsPrefix(dir, chunks, j);
        ok := Step(Download(chunks[j].filePath, localPath), Downloads(dir, chunks[..j]), c0, log0);
        if !ok {
          RanStop(faults, Downloads(dir, chunks[..j + 1]), Downloads(dir, chunks[j + 1..]), c0, log0, log, calls);
          DownloadsConcat(dir, chunks[..j + 1], chunks[j + 1..]);
          assert chunks[..j + 1] + chunks[j + 1..] == chunks;
          return;
        }
        localChunkPaths := localChunkPaths + [localPath];
        j := j + 1;
      }
      assert chunks[..j] == chunks;
      ok := true;
    }

    /** Concat list, merge, upload, row and event for one participant whose chunks are local. */
    method AssembleParticipant(sessionId: string, participantId: string, localChunkPaths: seq<string>)
      returns (ok: bool)
      modifies this
      ensures Ran(faults, Assembly(sessionId, participantId, localChunkPaths, upload), old(calls), old(log), ok, log, calls)
    {
      ghost var c0, log0 := calls, log;
      var dir := TempDir(sessionId);
      var fileListPath := FileListPath(dir, participantId);
      var finalOutputPath := FinalOutputPath(dir, participantId);
      var finalPublicId := FinalKey(sessionId, participantId);
      var e0 := WriteFile(fileListPath, ConcatList(localChunkPaths));
      var e1 := Concat(fileListPath, finalOutputPath);
      var e2 := Upload(finalOutputPath, finalPublicId);
      ghost var e3 := CreateFinal(FinalRow(sessionId, participantId, upload));
      var e4 := Publish(Channel, CompletionEvent(CompletedEvent, sessionId, participantId));
      ghost var plan := [e0, e1, e2, e3, e4];
      assert plan == Assembly(sessionId, participantId, localChunkPaths, upload);
      RanNothing(faults, c0, log0);

      assert [] + [e0] == [e0] && [e0] + [e1] == [e0, e1] && [e0, e1] + [e2] == [e0, e1, e2];
      assert [e0, e1, e2] + [e3] == [e0, e1, e2, e3] && [e0, e1, e2, e3] + [e4] == plan;
      ok := Step(e0, [], c0, log0);
      if !ok { RanStop(faults, [e0], [e1, e2, e3, e4], c0, log0, log, calls); assert [e0] + [e1, e2, e3, e4] == plan; return; }
      ok := Step(e1, [e0], c0, log0);
      if !ok { RanStop(faults, [e0, e1], [e2, e3, e4], c0, log0, log, calls); assert [e0, e1] + [e2, e3, e4] == plan; return; }
      ok := Step(e2, [e0, e1], c0, log0);
      if !ok { RanStop(faults, [e0, e1, e2], [e3, e4], c0, log0, log, calls); assert [e0, e1, e2] + [e3, e4] == plan; return; }
      var uploadResult := upload(finalOutputPath, finalPublicId);
      var row := FinalRecording(sessionId, participantId, uploadResult.publicId, uploadResult.bytes,
                                uploadResult.durationMs, "completed");
      ok := Step(CreateFinal(row), [e0, e1, e2], c0, log0);
      if !ok { RanStop(faults, [e0, e1, e2, e3], [e4], c0, log0, log, calls); return; }
      ok := Step(e4, [e0, e1, e2, e3], c0, log0);
    }

    /** One iteration of the participant loop. */
    method ProcessParticipant(sessionId: string, p: ParticipantRow) returns (ok: bool)
      modifies this
      ensures Ran(faults, PlanFor(sessionId, p, chunkTable, upload), old(calls), old(log), ok, log, calls)
    {
      ghost var c0, log0 := calls, log;
      var dir := TempDir(sessionId);
      var chunks := ChunksOf(chunkTable, p.id);
      ghost var downloads := Downloads(dir, chunks);
      ghost var assembly := Assembly(sessionId, p.id, LocalPaths(dir, chunks), upload);
      ghost var rest := if chunks == [] then [] else downloads + assembly;
      assert PlanFor(sessionId, p, chunkTable, upload) == [FindChunks(p.id)] + rest;
      RanNothing(faults, c0, log0);
      assert [] + [FindChunks(p.id)] == [FindChunks(p.id)];
      ok := Step(FindChunks(p.id), [], c0, log0);
      if !ok {
        RanStop(faults, [FindChunks(p.id)], rest, c0, log0, log, calls);
        return;
      }
      if |chunks| == 0 {
        assert [FindChunks(p.id)] + rest == [FindChunks(p.id)];
        return;
      }
      assert [FindChunks(p.id)] + rest == [FindChunks(p.id)] + downloads + assembly;
      ghost var c1, log1 := calls, log;
      var localChunkPaths;
      ok, localChunkPaths := DownloadChunks(dir, chunks);
      RanThen(faults, [FindChunks(p.id)], downloads, c0, log0, log1, c1, ok, log, calls);
      if !ok {
        RanStop(faults, [FindChunks(p.id)] + downloads, assembly, c0, log0, log, calls);
        return;
      }
      ghost var c2, log2 := calls, log;
      ok := AssembleParticipant(sessionId, p.id, localChunkPaths);
      RanThen(faults, [FindChunks(p.id)] + downloads, assembly, c0, log0, log2, c2, ok, log, calls);
    }

    /** The participant loop, in findMany order. */
    method ProcessParticipants(sessionId: string, participants: seq<ParticipantRow>) returns (ok: bool)
      modifies this
      ensures Ran(faults, PartsPlan(sessionId, participants, chunkTable, upload), old(calls), old(log), ok, log, calls)
    {
      ghost var c0, log0 := calls, log;
      RanNothing(faults, c0, log0);
      var i := 0;
      while i < |participants|
        invariant 0 <= i <= |participants|
        invariant Ran(faults, PartsPlan(sessionId, participants[..i], chunkTable, upload), c0, log0, true, log, calls)
      {
        ghost var c1, log1 := calls, log;
        ok := ProcessParticipant(sessionId, participants[i]);
        PartsPlanSplit(sessionId, participants, i, chunkTable, upload);
        RanStep(faults, PartsPlan(sessionId, participants[..i], chunkTable, upload),
                PlanFor(sessionId, participants[i], chunkTable, upload),
                PartsPlan(sessionId, participants[..i + 1], chunkTable, upload),
                PartsPlan(sessionId, participants[i + 1..], chunkTable, upload),
                PartsPlan(sessionId, participants, chunkTable, upload), c0, log0, log1, c1, ok, log, calls);
        if !ok {
          return;
        }
        i := i + 1;
      }
      assert participants[..i] == participants;
      ok := true;
    }

    /** `processVideo(sessionId)`: performs a prefix of Plan, all of it unless a call fails. */
    method ProcessVideo(sessionId: string) returns (ok: bool)
      modifies this
      ensures Ran(faults, Plan(sessionId, participantTable, chunkTable, upload), old(calls), old(log), ok, log, calls)
    {
      ghost var c0, log0 := calls, log;
      var dir := TempDir(sessionId);
      var participants := ParticipantsOf(participantTable, sessionId);
      ghost var parts := PartsPlan(sessionId, participants, chunkTable, upload);
      ghost var head := [MakeDir(dir), FindParticipants(sessionId)];
      assert Plan(sessionId, participantTable, chunkTable, upload) == head + parts + [RemoveDir(dir)];
      RanNothing(faults, c0, log0);

      ok := Step(MakeDir(dir), [], c0, log0);
      if !ok { RanStop(faults, [MakeDir(dir)], [FindParticipants(sessionId)] + parts + [RemoveDir(dir)], c0, log0, log, calls); return; }
      ok := Step(FindParticipants(sessionId), [MakeDir(dir)], c0, log0);
      if !ok { RanStop(faults, head, parts + [RemoveDir(dir)], c0, log0, log, calls); return; }
      ghost var c1, log1 := calls, log;
      ok := ProcessParticipants(sessionId, participants);
      RanThen(faults, head, parts, c0, log0, log1, c1, ok, log, calls);
      if !ok { RanStop(faults, head + parts, [RemoveDir(dir)], c0, log0, log, calls); return; }
      ok := Step(RemoveDir(dir), head + parts, c0, log0);
    }

    /** The queue's job handler: `{status: 'completed', sessionId}` after a full run, a throw otherwise. */
    method HandleJob(sessionId: string) returns (outcome: JobOutcome)
      modifies this
      ensures var plan := Plan(sessionId, participantTable, chunkTable, upload);
              var k := FirstFault(faults, old(calls), |plan|);
              && log == old(log) + plan[..k]
              && outcome == if k == |plan| then JobCompleted("completed", sessionId) else JobFailed
    {
      ghost var c0, log0 := calls, log;
      var ok := ProcessVideo(sessionId);
      RanFirstFault(faults, Plan(sessionId, participantTable, chunkTable, upload), c0, log0, ok, log, calls);
      outcome := if ok then JobCompleted("completed", sessionId) else JobFailed;
    }
  }

  // ---------------------------------------------------------------------------
  // What a run leaves behind

  /** The FinalRecording rows a sequence of calls stores, in order. */
  function RowsOf(es: seq<Effect>): (rows: seq<FinalRecording>)
    ensures |rows| <= |es|
    decreases |es|
  {
    if es == [] then []
    else RowsOf(es[..|es| - 1]) + (if es[|es| - 1].CreateFinal? then [es[|es| - 1].row] else [])
  }

  /** The events a sequence of calls publishes on the processing-events channel, in order. */
  function EventsOf(es: seq<Effect>): (events: seq<CompletionEvent>)
    ensures |events| <= |es|
    decreases |es|
  {
    if es == [] then []
    else
      var e := es[|es| - 1];
      EventsOf(es[..|es| - 1]) + (if e.Publish? && e.channel == Channel then [e.event] else [])
  }

  lemma {:induction false} RowsOfConcat(a: seq<Effect>, b: seq<Effect>)
    ensures RowsOf(a + b) == RowsOf(a) + RowsOf(b)
    ensures EventsOf(a + b) == EventsOf(a) + EventsOf(b)
    decreases |b|
  {
    if b == [] {
      assert a + b == a;
    } else {
      assert (a + b)[..|a + b| - 1] == a + b[..|b| - 1];
      RowsOfConcat(a, b[..|b| - 1]);
    }
  }

  /** Calls that neither store a row nor publish leave no trace in either. */
  lemma {:induction false} Quiet(es: seq<Effect>)
    requires forall i :: 0 <= i < |es| ==> !es[i].CreateFinal? && !es[i].Publish?
    ensures RowsOf(es) == [] && EventsOf(es) == []
    decreases |es|
  {
    if es != [] {
      Quiet(es[..|es| - 1]);
    }
  }

  lemma {:induction false} DownloadsShape(dir: string, cs: seq<ChunkRow>)
    ensures forall i :: 0 <= i < |cs| ==> Downloads(dir, cs)[i] == Download(cs[i].filePath, LocalPath(dir, cs[i]))
    decreases |cs|
  {
    if cs != [] {
      DownloadsShape(dir, cs[..|cs| - 1]);
    }
  }

  /** One row and one event for a participant with chunks, none otherwise. */
  lemma ParticipantTrace(sessionId: string, participantId: string, cs: seq<ChunkRow>,
                         upload: (string, string) -> UploadResult)
    ensures RowsOf(ParticipantPlan(sessionId, participantId, cs, upload))
         == if cs == [] then [] else [FinalRow(sessionId, participantId, upload)]
    ensures EventsOf(ParticipantPlan(sessionId, participantId, cs, upload))
         == if cs == [] then [] else [CompletionEvent(CompletedEvent, sessionId, participantId)]
  {
    var dir := TempDir(sessionId);
    Quiet([FindChunks(participantId)]);
    if cs != [] {
      var a := Assembly(sessionId, participantId, LocalPaths(dir, cs), upload);
      DownloadsShape(dir, cs);
      Quiet(Downloads(dir, cs));
      Quiet(a[..3]);
      assert a == a[..3] + [a[3]] + [a[4]];
      RowsOfConcat(a[..3], [a[3]]);
      RowsOfConcat(a[..3] + [a[3]], [a[4]]);
      assert [a[3]][..0] == [] && [a[4]][..0] == [];
      RowsOfConcat(Downloads(dir, cs), a);
      RowsOfConcat([FindChunks(participantId)], Downloads(dir, cs) + a);
    }
  }

  /** The participants, in findMany order, whose chunk query returns something. */
  function WithChunks(ps: seq<ParticipantRow>, chunkTable: seq<ChunkRow>): seq<ParticipantRow> {
    Filter(ps, HasChunks(chunkTable))
  }

  function ExpectedRows(sessionId: string, ps: seq<ParticipantRow>, upload: (string, string) -> UploadResult)
    : (rows: seq<FinalRecording>)
    ensures |rows| == |ps|
    decreases |ps|
  {
    if ps == [] then []
    else ExpectedRows(sessionId, ps[..|ps| - 1], upload) + [FinalRow(sessionId, ps[|ps| - 1].id, upload)]
  }

  function ExpectedEvents(sessionId: string, ps: seq<ParticipantRow>): (events: seq<CompletionEvent>)
    ensures |events| == |ps|
    decreases |ps|
  {
    if ps == [] then []
    else ExpectedEvents(sessionId, ps[..|ps| - 1]) + [CompletionEvent(CompletedEvent, sessionId, ps[|ps| - 1].id)]
  }

  lemma WithChunksSnoc(ps: seq<ParticipantRow>, chunkTable: seq<ChunkRow>)
    requires ps != []
    ensures WithChunks(ps, chunkTable)
         == WithChunks(ps[..|ps| - 1], chunkTable)
            + if ChunksOf(chunkTable, ps[|ps| - 1].id) != [] then [ps[|ps| - 1]] else []
  {
    var init, last := ps[..|ps| - 1], ps[|ps| - 1];
    assert init + [last] == ps;
    FilterConcat(init, [last], HasChunks(chunkTable));
    assert [last][1..] == [];
  }

  lemma ExpectedSnoc(sessionId: string, w: seq<ParticipantRow>, p: ParticipantRow,
                     upload: (string, string) -> UploadResult)
    ensures ExpectedRows(sessionId, w + [p], upload) == ExpectedRows(sessionId, w, upload) + [FinalRow(sessionId, p.id, upload)]
    ensures ExpectedEvents(sessionId, w + [p]) == ExpectedEvents(sessionId, w) + [CompletionEvent(CompletedEvent, sessionId, p.id)]
  {
    assert (w + [p])[..|w|] == w;
  }

  lemma {:induction false} PartsRows(sessionId: string, ps: seq<ParticipantRow>, chunkTable: seq<ChunkRow>,
                                     upload: (string, string) -> UploadResult)
    ensures RowsOf(PartsPlan(sessionId, ps, chunkTable, upload))
         == ExpectedRows(sessionId, WithChunks(ps, chunkTable), upload)
    decreases |ps|
  {
    if ps != [] {
      var init, last := ps[..|ps| - 1], ps[|ps| - 1];
      var w := WithChunks(init, chunkTable);
      WithChunksSnoc(ps, chunkTable);
      ExpectedSnoc(sessionId, w, last, upload);
      assert w + [] == w;
      PartsRows(sessionId, init, chunkTable, upload);
      RowsOfConcat(PartsPlan(sessionId, init, chunkTable, upload), PlanFor(sessionId, last, chunkTable, upload));
      ParticipantTrace(sessionId, last.id, ChunksOf(chunkTable, last.id), upload);
    }
  }

  lemma {:induction false} PartsEvents(sessionId: string, ps: seq<ParticipantRow>, chunkTable: seq<ChunkRow>,
                                       upload: (string, string) -> UploadResult)
    ensures EventsOf(PartsPlan(sessionId, ps, chunkTable, upload))
         == ExpectedEvents(sessionId, WithChunks(ps, chunkTable))
    decreases |ps|
  {
    if ps != [] {
      var init, last := ps[..|ps| - 1], ps[|ps| - 1];
      var w := WithChunks(init, chunkTable);
      WithChunksSnoc(ps, chunkTable);
      ExpectedSnoc(sessionId, w, last, upload);
      assert w + [] == w;
      PartsEvents(sessionId, init, chunkTable, upload);
      RowsOfConcat(PartsPlan(sessionId, init, chunkTable, upload), PlanFor(sessionId, last, chunkTable, upload));
      ParticipantTrace(sessionId, last.id, ChunksOf(chunkTable, last.id), upload);
    }
  }

  /** Across the participant loop, the final rows and the events follow the participants that have chunks. */
  lemma PartsTrace(sessionId: string, ps: seq<ParticipantRow>, chunkTable: seq<ChunkRow>,
                   upload: (string, string) -> UploadResult)
    ensures RowsOf(PartsPlan(sessionId, ps, chunkTable, upload))
         == ExpectedRows(sessionId, WithChunks(ps, chunkTable), upload)
    ensures EventsOf(PartsPlan(sessionId, ps, chunkTable, upload))
         == ExpectedEvents(sessionId, WithChunks(ps, chunkTable))
  {
    PartsRows(sessionId, ps, chunkTable, upload);
    PartsEvents(sessionId, ps, chunkTable, upload);
  }



  /** Every plan opens by creating the scratch directory and querying the participants, and closes by removing it. */
  lemma PlanFrame(sessionId: string, participantTable: seq<ParticipantRow>, chunkTable: seq<ChunkRow>,
                  upload: (string, string) -> UploadResult)
    ensures var plan := Plan(sessionId, participantTable, chunkTable, upload);
            && StartsWith(plan, [MakeDir(TempDir(sessionId)), FindParticipants(sessionId)])
            && EndsWith(plan, [RemoveDir(TempDir(sessionId))])
  {
  }

  /**
   * A run that does not fail stores exactly one completed FinalRecording and
   * publishes exactly one completion event per participant that has chunks,
   * in findMany order.
   */
  lemma PlanTrace(sessionId: string, participantTable: seq<ParticipantRow>, chunkTable: seq<ChunkRow>,
                  upload: (string, string) -> UploadResult)
    ensures var ps := WithChunks(ParticipantsOf(participantTable, sessionId), chunkTable);
            && RowsOf(Plan(sessionId, participantTable, chunkTable, upload)) == ExpectedRows(sessionId, ps, upload)
            && EventsOf(Plan(sessionId, participantTable, chunkTable, upload)) == ExpectedEvents(sessionId, ps)
  {
    var dir := TempDir(sessionId);
    var head := [MakeDir(dir), FindParticipants(sessionId)];
    var parts := PartsPlan(sessionId, ParticipantsOf(participantTable, sessionId), chunkTable, upload);
    var plan := Plan(sessionId, participantTable, chunkTable, upload);
    assert plan == (head + parts) + [RemoveDir(dir)];
    Quiet(head);
    Quiet([RemoveDir(dir)]);
    RowsOfConcat(head, parts);
    RowsOfConcat(head + parts, [RemoveDir(dir)]);
    assert RowsOf(plan) == RowsOf(parts) && EventsOf(plan) == EventsOf(parts);
    PartsTrace(sessionId, ParticipantsOf(participantTable, sessionId), chunkTable, upload);
  }

  /** The stored rows and published events of a run are those of a prefix of its plan. */
  lemma RanTrace(faults: set<nat>, plan: seq<Effect>, c0: nat, log0: seq<Effect>,
                 ok: bool, log: seq<Effect>, calls: nat)
    requires Ran(faults, plan, c0, log0, ok, log, calls)
    ensures exists k :: 0 <= k <= |plan| && log == log0 + plan[..k] && (ok ==> k == |plan|)
    ensures exists m :: 0 <= m <= |RowsOf(plan)| && RowsOf(log) == RowsOf(log0) + RowsOf(plan)[..m]
                        && (ok ==> m == |RowsOf(plan)|)
    ensures exists m :: 0 <= m <= |EventsOf(plan)| && EventsOf(log) == EventsOf(log0) + EventsOf(plan)[..m]
                        && (ok ==> m == |EventsOf(plan)|)
  {
    RanFirstFault(faults, plan, c0, log0, ok, log, calls);
    var k := FirstFault(faults, c0, |plan|);
    assert plan == plan[..k] + plan[k..];
    RowsOfConcat(plan[..k], plan[k..]);
    RowsOfConcat(log0, plan[..k]);
    var m := |RowsOf(plan[..k])|;
    assert RowsOf(plan)[..m] == RowsOf(plan[..k]);
    var n := |EventsOf(plan[..k])|;
    assert EventsOf(plan)[..n] == EventsOf(plan[..k]);
    if ok {
      assert plan[k..] == [];
    }
  }

  /**
   * Running the job a second time, after a first run that failed part-way or
   * succeeded, stores every row again: the rows of the first run are a prefix
   * of the expected rows, followed by all of them.
   */
  lemma RunTwice(faults: set<nat>, sessionId: string, participantTable: seq<ParticipantRow>,
                 chunkTable: seq<ChunkRow>, upload: (string, string) -> UploadResult,
                 c0: nat, log0: seq<Effect>, ok1: bool, log1: seq<Effect>, c1: nat, log2: seq<Effect>, c2: nat)
    requires Ran(faults, Plan(sessionId, participantTable, chunkTable, upload), c0, log0, ok1, log1, c1)
    requires Ran(faults, Plan(sessionId, participantTable, chunkTable, upload), c1, log1, true, log2, c2)
    ensures var expected := ExpectedRows(sessionId, WithChunks(ParticipantsOf(participantTable, sessionId), chunkTable), upload);
            exists m :: 0 <= m <= |expected| && (ok1 ==> m == |expected|)
                        && RowsOf(log2) == RowsOf(log0) + expected[..m] + expected
  {
    var plan := Plan(sessionId, participantTable, chunkTable, upload);
    PlanTrace(sessionId, participantTable, chunkTable, upload);
    RanTrace(faults, plan, c0, log0, ok1, log1, c1);
    RanTrace(faults, plan, c1, log1, true, log2, c2);
    var m :| 0 <= m <= |RowsOf(plan)| && RowsOf(log1) == RowsOf(log0) + RowsOf(plan)[..m] && (ok1 ==> m == |RowsOf(plan)|);
    var m2 :| 0 <= m2 <= |RowsOf(plan)| && RowsOf(log2) == RowsOf(log1) + RowsOf(plan)[..m2] && m2 == |RowsOf(plan)|;
    assert RowsOf(plan)[..m2] == RowsOf(plan);
  }

  // ---------------------------------------------------------------------------
  // The scratch directory

  lemma ParticipantKeepsDir(sessionId: string, participantId: string, cs: seq<ChunkRow>,
                            upload: (string, string) -> UploadResult)
    ensures forall e :: e in ParticipantPlan(sessionId, participantId, cs, upload) ==> !e.RemoveDir?
  {
    DownloadsShape(TempDir(sessionId), cs);
  }

  lemma {:induction false} PartsPlanKeepsDir(sessionId: string, ps: seq<ParticipantRow>, chunkTable: seq<ChunkRow>,
                                             upload: (string, string) -> UploadResult)
    ensures forall e :: e in PartsPlan(sessionId, ps, chunkTable, upload) ==> !e.RemoveDir?
    decreases |ps|
  {
    if ps != [] {
      var last := ps[|ps| - 1];
      PartsPlanKeepsDir(sessionId, ps[..|ps| - 1], chunkTable, upload);
      ParticipantKeepsDir(sessionId, last.id, ChunksOf(chunkTable, last.id), upload);
    }
  }


  /** The scratch directory is removed by the last call of the plan and by no other. */
  lemma ScratchRemovedOnlyOnSuccess(faults: set<nat>, sessionId: string, participantTable: seq<ParticipantRow>,
                                    chunkTable: seq<ChunkRow>, upload: (string, string) -> UploadResult,
                                    c0: nat, log0: seq<Effect>, ok: bool, log: seq<Effect>, calls: nat)
    requires Ran(faults, Plan(sessionId, participantTable, chunkTable, upload), c0, log0, ok, log, calls)
    ensures |log0| <= |log|
    ensures RemoveDir(TempDir(sessionId)) in log[|log0|..] <==> ok
  {
    var plan := Plan(sessionId, participantTable, chunkTable, upload);
    var parts := PartsPlan(sessionId, ParticipantsOf(participantTable, sessionId), chunkTable, upload);
    PartsPlanKeepsDir(sessionId, ParticipantsOf(participantTable, sessionId), chunkTable, upload);
    RanFirstFault(faults, plan, c0, log0, ok, log, calls);
    var k := FirstFault(faults, c0, |plan|);
    var body := [MakeDir(TempDir(sessionId)), FindParticipants(sessionId)] + parts;
    assert plan == body + [RemoveDir(TempDir(sessionId))];
    assert forall e :: e in body ==> !e.RemoveDir?;
    assert log[|log0|..] == plan[..k];
    if ok {
      assert plan[..k][|plan| - 1] == RemoveDir(TempDir(sessionId));
    } else {
      assert plan[..k] == body[..k];
      assert forall e :: e in body[..k] ==> e in body;
    }
  }

  // ---------------------------------------------------------------------------
  // The concat list and the chunk order

  /** Reading the concat list back line by line gives one `file '<path>'` line per chunk, in order. */
  lemma ConcatListLines(paths: seq<string>)
    requires |paths| >= 1
    requires forall i :: 0 <= i < |paths| ==> '\n' !in paths[i]
    ensures Split(ConcatList(paths), '\n') == ConcatLines(paths)
  {
    var lines := ConcatLines(paths);
    forall i | 0 <= i < |lines|
      ensures '\n' !in lines[i]
    {
      LineHasNoBreak(paths[i]);
    }
    SplitJoin(lines, '\n');
  }

  lemma LineHasNoBreak(path: string)
    requires '\n' !in path
    ensures '\n' !in "file '" + path + "'"
  {
    var line := "file '" + path + "'";
    forall j | 0 <= j < |line|
      ensures line[j] != '\n'
    {
      if 6 <= j < 6 + |path| {
        assert line[j] == path[j - 6];
      }
    }
  }

  /** The chunk query returns the participant's rows, each as often as it is stored, by ascending number. */
  lemma ChunksOfSpec(table: seq<ChunkRow>, participantId: string)
    ensures SortedByNumber(ChunksOf(table, participantId))
    ensures forall c :: multiset(ChunksOf(table, participantId))[c]
                        == if c.participantId == participantId then multiset(table)[c] else 0
  {
    forall c
      ensures multiset(ChunksOf(table, participantId))[c]
              == if c.participantId == participantId then multiset(table)[c] else 0
    {
      FilterMultiset(table, OfParticipant(participantId), c);
    }
  }

  /** Rows with the same number are the same row. */
  predicate NumbersIdentify(a: seq<ChunkRow>) {
    forall x, y :: x in a && y in a && x.chunkNumber == y.chunkNumber ==> x == y
  }

  lemma SortedHeadsAgree(a: seq<ChunkRow>, b: seq<ChunkRow>)
    requires SortedByNumber(a) && SortedByNumber(b) && multiset(a) == multiset(b)
    requires a != [] && b != [] && NumbersIdentify(a)
    ensures a[0] == b[0]
  {
    assert a[0] in multiset(b) && b[0] in multiset(a);
    var i :| 0 <= i < |b| && b[i] == a[0];
    var j :| 0 <= j < |a| && a[j] == b[0];
    assert b[0].chunkNumber <= a[0].chunkNumber <= b[0].chunkNumber;
  }

  lemma SortedTail(a: seq<ChunkRow>)
    requires a != [] && SortedByNumber(a)
    ensures SortedByNumber(a[1..])
    ensures NumbersIdentify(a) ==> NumbersIdentify(a[1..])
  {
    assert forall x :: x in a[1..] ==> x in a;
    forall i, j | 0 <= i < j < |a| - 1
      ensures a[1..][i].chunkNumber <= a[1..][j].chunkNumber
    {
      assert a[1..][i] == a[i + 1] && a[1..][j] == a[j + 1];
    }
  }

  lemma TailsSameMultiset<T>(a: seq<T>, b: seq<T>)
    requires a != [] && b != [] && a[0] == b[0] && multiset(a) == multiset(b)
    ensures multiset(a[1..]) == multiset(b[1..])
  {
    assert a == [a[0]] + a[1..] && b == [b[0]] + b[1..];
    forall x
      ensures multiset(a[1..])[x] == multiset(b[1..])[x]
    {
      assert multiset(a)[x] == multiset{a[0]}[x] + multiset(a[1..])[x];
      assert multiset(b)[x] == multiset{a[0]}[x] + multiset(b[1..])[x];
    }
  }

  /** Two sorted arrangements of the same rows agree when rows with the same number are the same row. */
  lemma {:induction false} SortedArrangementUnique(a: seq<ChunkRow>, b: seq<ChunkRow>)
    requires SortedByNumber(a) && SortedByNumber(b) && multiset(a) == multiset(b)
    requires NumbersIdentify(a)
    ensures a == b
    decreases |a|
  {
    assert |a| == |b| by {
      assert |a| == |multiset(a)| && |b| == |multiset(b)|;
    }
    if a != [] {
      SortedArrangementsStep(a, b);
      SortedArrangementUnique(a[1..], b[1..]);
      assert a == [a[0]] + a[1..] && b == [b[0]] + b[1..];
    }
  }

  /** Two non-empty sorted arrangements share their first row, and their tails are again sorted arrangements. */
  lemma SortedArrangementsStep(a: seq<ChunkRow>, b: seq<ChunkRow>)
    requires SortedByNumber(a) && SortedByNumber(b) && multiset(a) == multiset(b)
    requires NumbersIdentify(a) && a != [] && b != []
    ensures a[0] == b[0] && multiset(a[1..]) == multiset(b[1..])
    ensures SortedByNumber(a[1..]) && SortedByNumber(b[1..]) && NumbersIdentify(a[1..])
  {
    SortedHeadsAgree(a, b);
    TailsSameMultiset(a, b);
    SortedTail(a);
    SortedTail(b);
  }

  /**
   * The order in which chunks are concatenated depends only on which chunk
   * rows exist, not on the order they were inserted, as long as rows of the
   * participant with the same chunk number are identical (as re-uploads of a
   * chunk under its fixed key are).
   */
  lemma ChunkOrderIgnoresArrival(t1: seq<ChunkRow>, t2: seq<ChunkRow>, participantId: string)
    requires forall c: ChunkRow :: c.participantId == participantId ==> multiset(t1)[c] == multiset(t2)[c]
    requires forall x: ChunkRow, y: ChunkRow ::
               (x in t1 && y in t1 && x.participantId == participantId && y.participantId == participantId &&
                x.chunkNumber == y.chunkNumber) ==> x == y
    ensures ChunksOf(t1, participantId) == ChunksOf(t2, participantId)
  {
    SameChunkRows(t1, t2, participantId);
    ChunksIdentified(t1, participantId);
    SortedArrangementUnique(ChunksOf(t1, participantId), ChunksOf(t2, participantId));
  }

  lemma SameChunkRows(t1: seq<ChunkRow>, t2: seq<ChunkRow>, participantId: string)
    requires forall c: ChunkRow :: c.participantId == participantId ==> multiset(t1)[c] == multiset(t2)[c]
    ensures multiset(ChunksOf(t1, participantId)) == multiset(ChunksOf(t2, participantId))
  {
    forall c
      ensures multiset(ChunksOf(t1, participantId))[c] == multiset(ChunksOf(t2, participantId))[c]
    {
      FilterMultiset(t1, OfParticipant(participantId), c);
      FilterMultiset(t2, OfParticipant(participantId), c);
    }
  }

  lemma ChunksIdentified(t: seq<ChunkRow>, participantId: string)
    requires forall x: ChunkRow, y: ChunkRow ::
               (x in t && y in t && x.participantId == participantId && y.participantId == participantId &&
                x.chunkNumber == y.chunkNumber) ==> x == y
    ensures NumbersIdentify(ChunksOf(t, participantId))
  {
    var f := Filter(t, OfParticipant(participantId));
    assert multiset(ChunksOf(t, participantId)) == multiset(f);
    forall x | x in ChunksOf(t, participantId)
      ensures x in f
    {
      assert x in multiset(ChunksOf(t, participantId));
    }
  }


  /** Distinct sessions get distinct scratch directories. */
  lemma TempDirInjective(s1: string, s2: string)
    requires TempDir(s1) == TempDir(s2)
    ensures s1 == s2
  {
    assert s1 == TempDir(s1)[5..] && s2 == TempDir(s2)[5..];
  }

  /** A final key lies in the session's folder, next to its chunks, and ends with the participant id. */
  lemma FinalKeyLayout(sessionId: string, participantId: string)
    ensures StartsWith(FinalKey(sessionId, participantId), "podrec/sessions/" + sessionId + "/")
    ensures EndsWith(FinalKey(sessionId, participantId), "final_" + participantId)
  {
    var key := FinalKey(sessionId, participantId);
    assert key == ("podrec/sessions/" + sessionId + "/") + ("final_" + participantId);
  }

  /** Distinct participants of a session (or distinct sessions) get distinct final keys. */
  lemma FinalKeyInjective(s1: string, p1: string, s2: string, p2: string)
    requires '/' !in s1 && '/' !in s2
    requires FinalKey(s1, p1) == FinalKey(s2, p2)
    ensures s1 == s2 && p1 == p2
  {
    var prefix := "podrec/sessions/";
    assert FinalKey(s1, p1) == prefix + (s1 + ['/'] + ("final_" + p1));
    assert FinalKey(s2, p2) == prefix + (s2 + ['/'] + ("final_" + p2));
    assert FinalKey(s1, p1)[|prefix|..] == s1 + ['/'] + ("final_" + p1);
    SplitAtSeparator(s1, "final_" + p1, s2, "final_" + p2, '/');
    assert p1 == ("final_" + p1)[6..] && p2 == ("final_" + p2)[6..];
  }
}
