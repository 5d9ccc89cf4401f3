/** The broker over real log files: every run drives the bytes, and the bytes replay as the record logs say. */
module Storage {
  import opened Core
  import opened Wire
  import opened Log
  import opened Replay
  import opened Compaction
  import opened Broker
  import opened History
  import opened Theorems
  import Outcomes

  type LogFiles = map<Queue, seq<byte>>

  function FileOf(files: LogFiles, q: Queue): seq<byte> { if q in files then files[q] else [] }

  function Extended(files: LogFiles, q: Queue, more: seq<byte>): LogFiles { files[q := FileOf(files, q) + more] }

  /** The record that a task writes. */
  function RecordOf(task: Task): Record { if task.Burying? then Tombstone(task.msg.id) else Put(task.msg) }

  /** The first bytes of a frame. */
  function FrameCut(f: Format, rec: Record, cut: nat): seq<byte> {
    var frame := f.frame(rec);
    if cut <= |frame| then frame[..cut] else frame
  }

  /** What a step does to the files, torn or not. */
  ghost function FilesAfter(f: Format, s: State, files: LogFiles, step: Step): LogFiles {
    match step
    case SWriteRecord(t) =>
      if t in s.tasks then Extended(files, s.tasks[t].msg.queue, f.frame(Put(s.tasks[t].msg))) else files
    case SWriteTombstone(t) =>
      if t in s.tasks then Extended(files, s.tasks[t].msg.queue, f.frame(Tombstone(s.tasks[t].msg.id))) else files
    case SFailShort(t, cut) =>
      if t in s.tasks then Extended(files, s.tasks[t].msg.queue, FrameCut(f, RecordOf(s.tasks[t]), cut)) else files
    case SCompactLog(q) => files[q := CompactedFile(f, FileOf(files, q))]
    case SRestart(tears, maxRetries) =>
      map q | q in files.Keys + tears.Keys ::
        FileOf(files, q) + if q in tears then FrameCut(f, tears[q].rec, tears[q].cut) else []
    case _ => files
  }

  /** The file ends in a torn tail once the bytes are appended: together with the tail so far they complete no frame. */
  ghost predicate Tears(f: Format, files: LogFiles, q: Queue, more: seq<byte>) {
    more != [] && f.decode(Rest(f, FileOf(files, q)) + more).Torn?
  }

  /** A record written to a clean file is encodable; behind a torn tail anything may be written that leaves it torn. */
  ghost predicate EncodesWhole(f: Format, s: State, files: LogFiles, q: Queue, rec: Record) {
    if q in s.torn then Tears(f, files, q, f.frame(rec)) else f.encodable(rec)
  }

  ghost predicate EncodesPart(f: Format, files: LogFiles, q: Queue, rec: Record, cut: nat) {
    Tears(f, files, q, FrameCut(f, rec, cut))
  }

  /** The bytes a step writes: whole records, or what a short write or a crash leaves of one. */
  ghost predicate Encodes(f: Format, s: State, files: LogFiles, step: Step) {
    match step
    case SWriteRecord(t) => t in s.tasks ==> EncodesWhole(f, s, files, s.tasks[t].msg.queue, Put(s.tasks[t].msg))
    case SWriteTombstone(t) => t in s.tasks ==> EncodesWhole(f, s, files, s.tasks[t].msg.queue, Tombstone(s.tasks[t].msg.id))
    case SFailShort(t, cut) => t in s.tasks ==> EncodesPart(f, files, s.tasks[t].msg.queue, RecordOf(s.tasks[t]), cut)
    case SRestart(tears, maxRetries) => forall q :: q in tears ==> EncodesPart(f, files, q, tears[q].rec, tears[q].cut)
    case _ => true
  }

  // ---------------------------------------------------------------------------
  // One file
  // ---------------------------------------------------------------------------

  /** The file holds the frames of the records, followed by a torn tail if and only if the log is torn. */
  ghost predicate Represents(f: Format, data: seq<byte>, recs: seq<Record>, torn: bool) {
    && AllEncodable(f, recs)
    && Written(recs)
    && TornTail(f, Rest(f, data))
    && data == Frames(f, recs) + Rest(f, data)
    && (torn <==> Rest(f, data) != [])
  }

  lemma RepresentedReplay(f: Format, data: seq<byte>, recs: seq<Record>, torn: bool)
    requires Sound(f) && Represents(f, data, recs, torn)
    ensures Scan(f, data) == recs && Replayed(f, data) == Live(recs)
    ensures !Panics(f, data)
  {
    ScanWithTornTail(f, recs, Rest(f, data));
  }

  lemma RepresentsAppend(f: Format, data: seq<byte>, recs: seq<Record>, rec: Record)
    requires Sound(f) && Represents(f, data, recs, false) && f.encodable(rec) && Written([rec])
    ensures Represents(f, data + f.frame(rec), recs + [rec], false)
  {
    assert data == Frames(f, recs);
    FramesAppend(f, recs, rec);
    AppendToCleanIsDurable(f, data, rec);
    assert [rec][0] == rec;
    assert data + f.frame(rec) == Frames(f, recs + [rec]) + [];
  }

  lemma RepresentsCompact(f: Format, data: seq<byte>, recs: seq<Record>, torn: bool)
    requires Sound(f) && Represents(f, data, recs, torn)
    ensures Represents(f, CompactedFile(f, data), Compacted(recs), false)
  {
    RepresentedReplay(f, data, recs, torn);
    KeptAreEncodable(f, recs, Tombstoned(recs));
    CompactedFileReplaysAlike(f, data);
    assert CompactedFile(f, data) == Frames(f, Compacted(recs)) + [];
  }

  lemma RestOfTorn(f: Format, recs: seq<Record>, tail: seq<byte>)
    requires Sound(f) && AllEncodable(f, recs) && f.decode(tail).Torn?
    ensures Rest(f, Frames(f, recs) + tail) == tail
  {
    ScanFrames(f, recs, tail);
  }

  /** Bytes that leave the tail torn, or tear it, change no record. */
  lemma RepresentsTear(f: Format, data: seq<byte>, recs: seq<Record>, torn: bool, more: seq<byte>)
    requires Sound(f) && Represents(f, data, recs, torn) && more != [] && f.decode(Rest(f, data) + more).Torn?
    ensures Represents(f, data + more, recs, true)
  {
    ConcatAssoc(Frames(f, recs), Rest(f, data), more);
    RestOfTorn(f, recs, Rest(f, data) + more);
  }

  lemma CutIsTorn(f: Format, rec: Record, cut: nat)
    requires Sound(f) && f.encodable(rec) && 0 < cut < |f.frame(rec)|
    ensures FrameCut(f, rec, cut) == f.frame(rec)[..cut] && FrameCut(f, rec, cut) != []
    ensures f.decode([] + FrameCut(f, rec, cut)).Torn?
  {
    assert [] + FrameCut(f, rec, cut) == f.frame(rec)[..cut];
  }

  // ---------------------------------------------------------------------------
  // All files, every step
  // ---------------------------------------------------------------------------

  /** The files hold exactly what the broker's record logs say. */
  ghost predicate Joined(f: Format, s: State, files: LogFiles) { forall q :: JoinedAt(f, s, files, q) }

  ghost predicate JoinedAt(f: Format, s: State, files: LogFiles, q: Queue) {
    Represents(f, FileOf(files, q), LogOf(s, q), q in s.torn)
  }

  lemma SameAt(f: Format, s: State, files: LogFiles, s': State, files': LogFiles, q: Queue)
    requires JoinedAt(f, s, files, q) && FileOf(files', q) == FileOf(files, q) && LogOf(s', q) == LogOf(s, q)
    requires q in s'.torn <==> q in s.torn
    ensures JoinedAt(f, s', files', q)
  {
  }

  lemma JoinedLand(f: Format, s: State, files: LogFiles, s': State, q: Queue, rec: Record)
    requires Sound(f) && Joined(f, s, files) && q !in s.torn && f.encodable(rec) && Written([rec])
    requires s'.logs == Appended(s, q, rec) && s'.torn == s.torn
    ensures Joined(f, s', Extended(files, q, f.frame(rec)))
  {
    var files' := Extended(files, q, f.frame(rec));
    forall p ensures JoinedAt(f, s', files', p) {
      assert JoinedAt(f, s, files, p);
      if p == q {
        RepresentsAppend(f, FileOf(files, q), LogOf(s, q), rec);
      } else {
        SameAt(f, s, files, s', files', p);
      }
    }
  }

  lemma JoinedTear(f: Format, s: State, files: LogFiles, s': State, q: Queue, more: seq<byte>)
    requires Sound(f) && Joined(f, s, files) && Tears(f, files, q, more)
    requires s'.logs == s.logs && s'.torn == s.torn + {q}
    ensures Joined(f, s', Extended(files, q, more))
  {
    var files' := Extended(files, q, more);
    forall p ensures JoinedAt(f, s', files', p) {
      assert JoinedAt(f, s, files, p);
      if p == q {
        RepresentsTear(f, FileOf(files, q), LogOf(s, q), q in s.torn, more);
      } else {
        SameAt(f, s, files, s', files', p);
      }
    }
  }

  lemma JoinedCompact(f: Format, s: State, files: LogFiles, q: Queue, s': State, files': LogFiles)
    requires Sound(f) && Joined(f, s, files) && CompactLog(s, q) == Some(s')
    requires files' == files[q := CompactedFile(f, FileOf(files, q))]
    ensures Joined(f, s', files')
  {
    forall p ensures JoinedAt(f, s', files', p) {
      assert JoinedAt(f, s, files, p);
      if p == q {
        RepresentsCompact(f, FileOf(files, q), LogOf(s, q), q in s.torn);
      } else {
        SameAt(f, s, files, s', files', p);
      }
    }
  }

  lemma FileAfterRestart(f: Format, s: State, files: LogFiles, tears: map<Queue, Tear>, maxRetries: int32, q: Queue)
    ensures FileOf(FilesAfter(f, s, files, SRestart(tears, maxRetries)), q)
         == if q in tears then FileOf(files, q) + FrameCut(f, tears[q].rec, tears[q].cut) else FileOf(files, q)
  {
  }

  /** On a clean file every proper part of an encodable frame leaves a torn tail, whatever the checksum. */
  lemma PartTears(f: Format, s: State, files: LogFiles, q: Queue, rec: Record, cut: nat)
    requires Sound(f) && JoinedAt(f, s, files, q) && q !in s.torn && f.encodable(rec) && 0 < cut < |f.frame(rec)|
    ensures EncodesPart(f, files, q, rec, cut)
  {
    CutIsTorn(f, rec, cut);
  }

  lemma JoinedRestart(f: Format, s: State, files: LogFiles, tears: map<Queue, Tear>, maxRetries: int32)
    requires Sound(f) && Joined(f, s, files) && Encodes(f, s, files, SRestart(tears, maxRetries))
    ensures Joined(f, Restart(s, tears, maxRetries), FilesAfter(f, s, files, SRestart(tears, maxRetries)))
  {
    var s', files' := Restart(s, tears, maxRetries), FilesAfter(f, s, files, SRestart(tears, maxRetries));
    forall q ensures JoinedAt(f, s', files', q) {
      assert JoinedAt(f, s, files, q);
      FileAfterRestart(f, s, files, tears, maxRetries, q);
      if q in tears {
        RepresentsTear(f, FileOf(files, q), LogOf(s, q), q in s.torn, FrameCut(f, tears[q].rec, tears[q].cut));
      }
    }
  }

  lemma JoinedSwallow(f: Format, s: State, files: LogFiles, s': State, q: Queue, rec: Record)
    requires Sound(f) && Joined(f, s, files) && q in s.torn && Tears(f, files, q, f.frame(rec))
    requires s'.logs == s.logs && s'.torn == s.torn
    ensures Joined(f, s', Extended(files, q, f.frame(rec)))
  {
    JoinedTear(f, s, files, s', q, f.frame(rec));
  }

  lemma JoinedSwallowRecord(f: Format, s: State, files: LogFiles, t: nat, s': State)
    requires Sound(f) && Joined(f, s, files) && t in s.tasks && s.tasks[t].msg.queue in s.torn && s' == SwallowRecord(s, t)
    requires Encodes(f, s, files, SWriteRecord(t))
    ensures Joined(f, s', FilesAfter(f, s, files, SWriteRecord(t)))
  {
    JoinedSwallow(f, s, files, s', s.tasks[t].msg.queue, Put(s.tasks[t].msg));
  }

  lemma JoinedLandRecord(f: Format, s: State, files: LogFiles, t: nat, s': State)
    requires Sound(f) && Joined(f, s, files) && t in s.tasks && s.tasks[t].msg.queue !in s.torn && s' == LandRecord(s, t)
    requires Encodes(f, s, files, SWriteRecord(t))
    ensures Joined(f, s', FilesAfter(f, s, files, SWriteRecord(t)))
  {
    JoinedLand(f, s, files, s', s.tasks[t].msg.queue, Put(s.tasks[t].msg));
  }

  lemma JoinedWriteRecord(f: Format, s: State, files: LogFiles, t: nat, s': State)
    requires Sound(f) && Joined(f, s, files) && Encodes(f, s, files, SWriteRecord(t)) && WriteRecord(s, t) == Some(s')
    ensures Joined(f, s', FilesAfter(f, s, files, SWriteRecord(t)))
  {
    if s.tasks[t].msg.queue in s.torn {
      JoinedSwallowRecord(f, s, files, t, s');
    } else {
      JoinedLandRecord(f, s, files, t, s');
    }
  }

  lemma JoinedSwallowTombstone(f: Format, s: State, files: LogFiles, t: nat, s': State)
    requires Sound(f) && Joined(f, s, files) && t in s.tasks && s.tasks[t].msg.queue in s.torn && s' == WithoutTask(s, t, Gone)
    requires Encodes(f, s, files, SWriteTombstone(t))
    ensures Joined(f, s', FilesAfter(f, s, files, SWriteTombstone(t)))
  {
    JoinedSwallow(f, s, files, s', s.tasks[t].msg.queue, Tombstone(s.tasks[t].msg.id));
  }

  lemma JoinedLandTombstone(f: Format, s: State, files: LogFiles, t: nat, s': State)
    requires Sound(f) && Joined(f, s, files) && t in s.tasks && s.tasks[t].msg.queue !in s.torn && s' == LandTombstone(s, t)
    requires Encodes(f, s, files, SWriteTombstone(t))
    ensures Joined(f, s', FilesAfter(f, s, files, SWriteTombstone(t)))
  {
    JoinedLand(f, s, files, s', s.tasks[t].msg.queue, Tombstone(s.tasks[t].msg.id));
  }

  lemma JoinedWriteTombstone(f: Format, s: State, files: LogFiles, t: nat, s': State)
    requires Sound(f) && Joined(f, s, files) && Encodes(f, s, files, SWriteTombstone(t)) && WriteTombstone(s, t) == Some(s')
    ensures Joined(f, s', FilesAfter(f, s, files, SWriteTombstone(t)))
  {
    if s.tasks[t].msg.queue in s.torn {
      JoinedSwallowTombstone(f, s, files, t, s');
    } else {
      JoinedLandTombstone(f, s, files, t, s');
    }
  }

  lemma JoinedFailShort(f: Format, s: State, files: LogFiles, t: nat, cut: nat, s': State)
    requires Sound(f) && Joined(f, s, files) && Encodes(f, s, files, SFailShort(t, cut)) && FailShort(s, t) == Some(s')
    ensures Joined(f, s', FilesAfter(f, s, files, SFailShort(t, cut)))
  {
    var q, rec := s.tasks[t].msg.queue, RecordOf(s.tasks[t]);
    JoinedTear(f, s, files, s', q, FrameCut(f, rec, cut));
  }

  lemma JoinedFrame(f: Format, s: State, files: LogFiles, s': State)
    requires Joined(f, s, files) && s'.logs == s.logs && s'.torn == s.torn
    ensures Joined(f, s', files)
  {
    forall q ensures JoinedAt(f, s', files, q) {
      assert JoinedAt(f, s, files, q);
      SameAt(f, s, files, s', files, q);
    }
  }

  lemma JoinedLogStep(f: Format, s: State, files: LogFiles, step: Step, s': State)
    requires Sound(f) && Joined(f, s, files) && Encodes(f, s, files, step) && IsLogStep(step) && LogNext(s, step) == Some(s')
    ensures Joined(f, s', FilesAfter(f, s, files, step))
  {
    if step.SWriteRecord? {
      JoinedWriteRecord(f, s, files, step.t, s');
    } else if step.SWriteTombstone? {
      JoinedWriteTombstone(f, s, files, step.t, s');
    } else if step.SCompactLog? {
      JoinedCompact(f, s, files, step.q, s', FilesAfter(f, s, files, step));
    } else {
      JoinedRestart(f, s, files, step.tears, step.maxRetries);
    }
  }

  /** One invariant joins the two layers: every step keeps files and record logs in agreement. */
  lemma JoinedStep(f: Format, s: State, files: LogFiles, step: Step, s': State)
    requires Sound(f) && Joined(f, s, files) && Encodes(f, s, files, step) && Next(s, step) == Some(s')
    ensures Joined(f, s', FilesAfter(f, s, files, step))
  {
    if IsLogStep(step) {
      JoinedLogStep(f, s, files, step, s');
    } else if step.SFailShort? {
      JoinedFailShort(f, s, files, step.t, step.cut, s');
    } else {
      StepFrame(s, step, s');
      JoinedFrame(f, s, files, s');
    }
  }

  // ---------------------------------------------------------------------------
  // Whole runs
  // ---------------------------------------------------------------------------

  /** The files after a whole run. */
  ghost function FilesOf(f: Format, start: State, files: LogFiles, steps: seq<Step>): LogFiles {
    if steps == [] then files
    else
      var init := steps[..|steps| - 1];
      var before := Run(start, init);
      if before.None? then files
      else FilesAfter(f, before.value, FilesOf(f, start, files, init), steps[|steps| - 1])
  }

  /** Every step of the run writes encodable records and completes no frame behind a torn tail. */
  ghost predicate EncodesAll(f: Format, start: State, files: LogFiles, steps: seq<Step>) {
    steps != [] ==>
      var init := steps[..|steps| - 1];
      EncodesAll(f, start, files, init)
      && (Run(start, init).Some? ==>
            Encodes(f, Run(start, init).value, FilesOf(f, start, files, init), steps[|steps| - 1]))
  }

  lemma {:induction false} JoinedRun(f: Format, start: State, files: LogFiles, steps: seq<Step>, s: State)
    requires Sound(f) && Joined(f, start, files) && EncodesAll(f, start, files, steps) && Run(start, steps) == Some(s)
    ensures Joined(f, s, FilesOf(f, start, files, steps))
  {
    if steps != [] {
      var init := steps[..|steps| - 1];
      var before := Run(start, init).value;
      JoinedRun(f, start, files, init, before);
      JoinedStep(f, before, FilesOf(f, start, files, init), steps[|steps| - 1], s);
    }
  }

  /** A run of the broker over files that held its initial logs. */
  ghost predicate DrivenRun(f: Format, start: State, files: LogFiles, steps: seq<Step>, s: State) {
    Sound(f) && Joined(f, start, files) && EncodesAll(f, start, files, steps) && Reachable(s, start, steps)
  }

  /** Replaying a file gives what the record log says, and never panics. */
  lemma DrivenReplay(f: Format, start: State, files: LogFiles, steps: seq<Step>, s: State, q: Queue)
    requires DrivenRun(f, start, files, steps, s)
    ensures var data := FileOf(FilesOf(f, start, files, steps), q);
      !Panics(f, data) && Replayed(f, data) == Live(LogOf(s, q))
  {
    JoinedRun(f, start, files, steps, s);
    assert JoinedAt(f, s, FilesOf(f, start, files, steps), q);
    RepresentedReplay(f, FileOf(FilesOf(f, start, files, steps), q), LogOf(s, q), q in s.torn);
  }

  /**
   Durability in bytes. From files that hold the initial logs, after any run of publishes, dispatches, outcomes,
   timeouts, expiries, disconnects, shutdowns, compactions, failing writes and crashes, replaying the file of a queue
   returns every message written to it while it was clean and not tombstoned while it was clean.
   */
  lemma DurableInFiles(f: Format, start: State, files: LogFiles, steps: seq<Step>, s: State, q: Queue, id: MessageID)
    requires DrivenRun(f, start, files, steps, s) && (q, id) in s.landed && (q, id) !in s.buried
    ensures id in Ids(Replayed(f, FileOf(FilesOf(f, start, files, steps), q)))
  {
    DrivenReplay(f, start, files, steps, s, q);
    DurableRun(start, steps, s, q, id);
  }

  /** For a message published in this session that is all it returns: exactly if written, and not tombstoned, while clean. */
  lemma ReplayedExactlyInFiles(f: Format, start: State, files: LogFiles, steps: seq<Step>, s: State, q: Queue, id: MessageID)
    requires DrivenRun(f, start, files, steps, s) && id in s.home
    ensures id in Ids(Replayed(f, FileOf(FilesOf(f, start, files, steps), q))) <==> (q, id) in s.landed && (q, id) !in s.buried
  {
    DrivenReplay(f, start, files, steps, s, q);
    Outcomes.ReplayedExactly(start, steps, s, q, id);
  }

  /** The exact copies of a published message that a replay of the file of its home queue, or of one below, returns. */
  lemma ExactHistoryInFiles(f: Format, start: State, files: LogFiles, steps: seq<Step>, s: State, id: MessageID, depth: nat)
    requires DrivenRun(f, start, files, steps, s) && id in s.home
    ensures id in s.writes
    ensures Copies(Replayed(f, FileOf(FilesOf(f, start, files, steps), DlqName(s.home[id], depth))), id)
         == Outcomes.Remaining(s, id, depth)
  {
    DrivenReplay(f, start, files, steps, s, DlqName(s.home[id], depth));
    Outcomes.ExactLogHistory(start, steps, s, id, depth);
  }

  /** A broker started on an empty directory: the hypotheses of the theorems above can be met. */
  lemma EmptyDirectoryIsJoined(f: Format, start: State)
    requires Sound(f) && start.logs == map[] && start.torn == {}
    ensures Joined(f, start, map[])
  {
    assert !f.decode([]).Ok?;
    assert Rest(f, []) == [];
  }
}
