/** Appending to a log file, and rewriting it through a temporary file that replaces it atomically. */
module Compaction {
  import opened Core
  import opened Wire
  import opened Log
  import opened Replay

  type Path = string
  type Files = map<Path, seq<byte>>

  /** What a compaction writes in place of `data`. */
  function CompactedFile(f: Format, data: seq<byte>): seq<byte> { Frames(f, Compacted(Scan(f, data))) }

  ghost predicate SurvivorsEncodable(f: Format, data: seq<byte>) { AllEncodable(f, Compacted(Scan(f, data))) }

  // ---------------------------------------------------------------------------
  // What compaction preserves
  // ---------------------------------------------------------------------------

  lemma CompactedFileReplaysAlike(f: Format, data: seq<byte>)
    requires Sound(f) && SurvivorsEncodable(f, data)
    ensures Clean(f, CompactedFile(f, data))
    ensures Scan(f, CompactedFile(f, data)) == Compacted(Scan(f, data))
    ensures Replayed(f, CompactedFile(f, data)) == Replayed(f, data)
    ensures CompactedFile(f, CompactedFile(f, data)) == CompactedFile(f, data)
  {
    var recs := Compacted(Scan(f, data));
    ScanWithTornTail(f, recs, []);
    assert Frames(f, recs) + [] == Frames(f, recs);
    CompactionPreservesLive(Scan(f, data));
    CompactionIdempotent(Scan(f, data));
  }

  /** No later sequence of appends can tell a compacted clean log from the original, unless it resurrects an ID. */
  lemma CompactedFileIsInvisible(f: Format, data: seq<byte>, s: seq<Record>)
    requires Sound(f) && Clean(f, data) && SurvivorsEncodable(f, data) && AllEncodable(f, s)
    ensures Replayed(f, CompactedFile(f, data) + Frames(f, s)) == Replayed(f, data + Frames(f, s))
       <==> !Resurrects(Scan(f, data), s)
  {
    CompactedFileReplaysAlike(f, data);
    ScanAfterClean(f, data, Frames(f, s));
    ScanAfterClean(f, CompactedFile(f, data), Frames(f, s));
    ScanWithTornTail(f, s, []);
    assert Frames(f, s) + [] == Frames(f, s);
    CompactionInvisible(Scan(f, data), s);
  }

  lemma FrameNotEmpty(f: Format, rec: Record)
    requires Sound(f) && f.encodable(rec)
    ensures |f.frame(rec)| >= RECORD_OVERHEAD
  {
    assert f.decode(f.frame(rec) + []) == Ok(rec, |f.frame(rec)|);
  }

  lemma FramesAppend(f: Format, recs: seq<Record>, rec: Record)
    ensures Frames(f, recs + [rec]) == Frames(f, recs) + f.frame(rec)
  {
    FramesConcat(f, recs, [rec]);
    FramesOne(f, rec);
  }

  lemma PutsAppend(ms: seq<Message>, m: Message)
    ensures Puts(ms + [m]) == Puts(ms) + [Put(m)]
  {
  }

  ghost predicate HasTombstone(recs: seq<Record>) {
    exists i :: 0 <= i < |recs| && IsTombstone(recs[i])
  }

  lemma HasTombstoneAppend(recs: seq<Record>, rec: Record)
    ensures HasTombstone(recs + [rec]) <==> HasTombstone(recs) || IsTombstone(rec)
  {
    var all := recs + [rec];
    assert all[|recs|] == rec;
    assert forall i :: 0 <= i < |recs| ==> all[i] == recs[i];
  }

  /** What a filter keeps of encoder output is encoder output again. */
  lemma {:induction false} KeptAreEncodable(f: Format, recs: seq<Record>, dead: set<MessageID>)
    requires AllEncodable(f, recs) && Written(recs)
    ensures AllEncodable(f, Puts(Without(Messages(recs), dead)))
  {
    if recs != [] {
      var init, last := recs[..|recs| - 1], recs[|recs| - 1];
      KeptAreEncodable(f, init, dead);
      if IsPut(last) {
        assert Put(MessageOf(last)) == last;
        WithoutAppend(Messages(init), MessageOf(last), dead);
        PutsAppend(Without(Messages(init), dead), MessageOf(last));
      }
    }
  }

  lemma KeptStep(f: Format, init: seq<Record>, last: Record, dead: set<MessageID>)
    requires Written([last])
    ensures var before := Puts(Without(Messages(init), dead));
      var kept := Puts(Without(Messages(init + [last]), dead));
      && (kept == before || (kept == before + [last] && |Frames(f, kept)| == |Frames(f, before)| + |f.frame(last)|))
      && (IsTombstone(last) ==> kept == before)
      && (IsPut(last) && dead == {} ==> kept == before + [last])
  {
    var ms := Without(Messages(init), dead);
    assert [last][0] == last;
    MessagesAppend(init, last);
    if IsPut(last) {
      assert Put(MessageOf(last)) == last;
      WithoutAppend(Messages(init), MessageOf(last), dead);
      PutsAppend(ms, MessageOf(last));
      FramesAppend(f, Puts(ms), last);
    }
  }

  /** A filter never makes the file longer, drops at least the tombstones, and drops nothing else if none is dead. */
  lemma {:induction false} KeptSize(f: Format, recs: seq<Record>, dead: set<MessageID>)
    requires Sound(f) && AllEncodable(f, recs) && Written(recs)
    ensures var kept := Puts(Without(Messages(recs), dead));
      && |Frames(f, kept)| <= |Frames(f, recs)|
      && (HasTombstone(recs) ==> |Frames(f, kept)| < |Frames(f, recs)|)
      && (!HasTombstone(recs) && dead == {} ==> kept == recs)
  {
    if recs != [] {
      var init, last := recs[..|recs| - 1], recs[|recs| - 1];
      assert recs == init + [last];
      KeptSize(f, init, dead);
      KeptStep(f, init, last, dead);
      FramesAppend(f, init, last);
      FrameNotEmpty(f, last);
      HasTombstoneAppend(init, last);
    }
  }

  /**
   Normal form. For a file of encoder output with any torn tail, compaction yields a clean file with the same replay,
   is idempotent byte for byte, never grows the file, and shrinks it exactly when there was a tombstone or a torn tail
   to drop; otherwise it leaves every byte in place.
   */
  lemma CompactionNormalForm(f: Format, recs: seq<Record>, tail: seq<byte>)
    requires Sound(f) && AllEncodable(f, recs) && Written(recs) && TornTail(f, tail)
    ensures var data := Frames(f, recs) + tail; var out := CompactedFile(f, data);
      && Clean(f, out)
      && Replayed(f, out) == Replayed(f, data)
      && CompactedFile(f, out) == out
      && |out| <= |data|
      && (|out| < |data| <==> HasTombstone(recs) || tail != [])
      && (out == data <==> !HasTombstone(recs) && tail == [])
  {
    var data := Frames(f, recs) + tail;
    ScanWithTornTail(f, recs, tail);
    KeptAreEncodable(f, recs, Tombstoned(recs));
    KeptSize(f, recs, Tombstoned(recs));
    CompactedFileReplaysAlike(f, data);
    if !HasTombstone(recs) {
      assert Tombstoned(recs) == {};
      assert Compacted(recs) == recs;
    }
    assert tail == [] ==> data == Frames(f, recs);
  }

  // ---------------------------------------------------------------------------
  // Appending
  // ---------------------------------------------------------------------------

  /** On a clean file an appended record is replayed in addition to everything before it. */
  lemma AppendToCleanIsDurable(f: Format, data: seq<byte>, rec: Record)
    requires Sound(f) && Clean(f, data) && f.encodable(rec)
    ensures Clean(f, data + f.frame(rec))
    ensures Scan(f, data + f.frame(rec)) == Scan(f, data) + [rec]
  {
    ScanAfterClean(f, data, f.frame(rec));
    FramesOne(f, rec);
    ScanWithTornTail(f, [rec], []);
    assert Frames(f, [rec]) + [] == f.frame(rec);
  }

  /**
   The writer appends after a torn tail without truncating it. Whatever the tail and whatever is appended, the scan still
   ends where it did, if and only if tail and appended bytes together do not happen to start with a complete frame.
   */
  lemma TornTailSwallowsExactly(c: Codec, recs: seq<Record>, tail: seq<byte>, more: seq<byte>)
    requires Lawful(c) && AllEncodable(Binary(c), recs) && TornTail(Binary(c), tail)
    ensures Scan(Binary(c), Frames(Binary(c), recs) + (tail + more)) == recs <==> !CompletesFrame(c, tail + more)
  {
    var f := Binary(c);
    BinaryIsSound(c);
    ScanFrames(f, recs, tail + more);
    DecodesExactly(c, tail + more);
    assert recs + [] == recs;
    assert |recs + Scan(f, tail + more)| == |recs| + |Scan(f, tail + more)|;
  }

  /** A crash that leaves one to three bytes of a frame always does so: every later append is lost to replay. */
  lemma TornTailSwallowsAppends(c: Codec, recs: seq<Record>, torn: Record, cut: nat, later: seq<Record>)
    requires Lawful(c) && AllEncodable(Binary(c), recs)
    requires 1 <= cut <= 3 && later != []
    ensures var f := Binary(c);
      Scan(f, Frames(f, recs) + (f.frame(torn)[..cut] + Frames(f, later))) == recs
  {
    var f := Binary(c);
    BinaryIsSound(c);
    var tail := f.frame(torn)[..cut] + Frames(f, later);
    ShiftedMagicIsTorn(c, torn, cut, later[0], Frames(f, later[1..]));
    ScanWithTornTail(f, recs, tail);
  }

  // ---------------------------------------------------------------------------
  // Files and crashes
  // ---------------------------------------------------------------------------

  function WalPath(q: Queue): Path { q + ".wal" }

  function TempPath(q: Queue): Path { WalPath(q) + ".tmp" }

  function Contents(files: Files, path: Path): seq<byte> { if path in files then files[path] else [] }

  /** What startup loads for a queue: only names ending in `.wal` are read. */
  function Recovered(f: Format, files: Files, q: Queue): seq<Message> { Replayed(f, Contents(files, WalPath(q))) }

  lemma TempIsNoWal(q: Queue, other: Queue)
    ensures TempPath(q) != WalPath(other)
  {
    assert TempPath(q)[|TempPath(q)| - 1] == 'p';
    assert WalPath(other)[|WalPath(other)| - 1] == 'l';
  }

  /**
   A directory whose operations may fail, with the list of states at which a crash could have left it, and whether any
   operation has failed.
   */
  class Disk {
    var files: Files
    ghost var states: seq<Files>
    ghost var failed: bool

    constructor (files: Files)
      ensures this.files == files && states == [files] && !failed
    {
      this.files := files;
      states, failed := [files], false;
    }

    /** An operation that changes no file: open, close, sync or read. */
    method Attempt() returns (ok: bool)
      modifies this`failed
      ensures failed == (old(failed) || !ok)
    {
      ok := *;
      failed := failed || !ok;
    }

    method Truncate(path: Path) returns (ok: bool)
      modifies this
      ensures files == if ok then old(files)[path := []] else old(files)
      ensures states == old(states) + [files] && failed == (old(failed) || !ok)
    {
      ok := Attempt();
      if ok { files := files[path := []]; }
      states := states + [files];
    }

    /** Writes a prefix of `data`; a crash may happen after any byte of it. */
    method Append(path: Path, data: seq<byte>) returns (n: nat)
      modifies this
      ensures n <= |data| && failed == (old(failed) || n < |data|)
      ensures files == old(files)[path := Contents(old(files), path) + data[..n]]
      ensures |states| == |old(states)| + n + 1 && states[..|old(states)|] == old(states)
      ensures forall i :: |old(states)| <= i < |states| ==>
        states[i] == old(files)[path := Contents(old(files), path) + data[..i - |old(states)|]]
    {
      var cut: int := *;
      n := if 0 <= cut < |data| then cut else |data|;
      ghost var before := files;
      var base := Contents(files, path);
      states := states + seq(n + 1, k requires 0 <= k <= n => before[path := base + data[..k]]);
      files := files[path := base + data[..n]];
      failed := failed || n < |data|;
    }

    method Remove(path: Path)
      modifies this`files, this`states
      ensures files == old(files) - {path} && states == old(states) + [files]
    {
      files := files - {path};
      states := states + [files];
    }

    method Rename(from: Path, to: Path) returns (ok: bool)
      requires from in files
      modifies this
      ensures files == if ok then old(files)[to := old(files)[from]] - {from} else old(files)
      ensures states == old(states) + [files] && failed == (old(failed) || !ok)
    {
      ok := Attempt();
      if ok { files := files[to := files[from]] - {from}; }
      states := states + [files];
    }
  }

  /** `files` differs from `start` at most at `path`. */
  ghost predicate SameExcept(files: Files, start: Files, path: Path) { files - {path} == start - {path} }

  /** Every state since the first `n` differs from `start` at most in the temporary file of `q`. */
  ghost predicate OnlyTempSince(states: seq<Files>, n: nat, start: Files, q: Queue) {
    n <= |states| && forall i :: n <= i < |states| ==> SameExcept(states[i], start, TempPath(q))
  }

  /** Every state since the first `n` recovers every queue as `start` does. */
  ghost predicate RecoversAlikeSince(f: Format, states: seq<Files>, n: nat, start: Files) {
    n <= |states| && forall i, q :: n <= i < |states| ==> Recovered(f, states[i], q) == Recovered(f, start, q)
  }

  lemma SameElsewhere(files: Files, start: Files, path: Path, other: Path)
    requires SameExcept(files, start, path) && other != path
    ensures other in files <==> other in start
    ensures Contents(files, other) == Contents(start, other)
  {
    var a, b := files - {path}, start - {path};
    assert other in files <==> other in a;
    assert other in start <==> other in b;
  }

  /** Startup ignores the temporary file. */
  lemma TempIsIgnored(f: Format, files: Files, start: Files, q: Queue)
    requires SameExcept(files, start, TempPath(q))
    ensures forall other :: Recovered(f, files, other) == Recovered(f, start, other)
  {
    forall other ensures Recovered(f, files, other) == Recovered(f, start, other) {
      TempIsNoWal(q, other);
      SameElsewhere(files, start, TempPath(q), WalPath(other));
    }
  }

  lemma OnlyTempRecovers(f: Format, states: seq<Files>, n: nat, start: Files, q: Queue)
    requires OnlyTempSince(states, n, start, q)
    ensures RecoversAlikeSince(f, states, n, start)
  {
    forall i, other | n <= i < |states| ensures Recovered(f, states[i], other) == Recovered(f, start, other) {
      TempIsIgnored(f, states[i], start, q);
    }
  }

  lemma RecoversMore(f: Format, states: seq<Files>, n: nat, start: Files, next: Files)
    requires RecoversAlikeSince(f, states, n, start)
    requires forall q :: Recovered(f, next, q) == Recovered(f, start, q)
    ensures RecoversAlikeSince(f, states + [next], n, start)
  {
  }

  /** The rename puts the compacted file in place and changes no other queue. */
  lemma RenameRecovers(f: Format, before: Files, start: Files, q: Queue)
    requires Sound(f) && SurvivorsEncodable(f, Contents(start, WalPath(q)))
    requires SameExcept(before, start, TempPath(q))
    requires TempPath(q) in before && before[TempPath(q)] == CompactedFile(f, Contents(start, WalPath(q)))
    ensures var after := before[WalPath(q) := before[TempPath(q)]] - {TempPath(q)};
      forall other :: Recovered(f, after, other) == Recovered(f, start, other)
  {
    var after := before[WalPath(q) := before[TempPath(q)]] - {TempPath(q)};
    forall other ensures Recovered(f, after, other) == Recovered(f, start, other) {
      TempIsNoWal(q, other);
      TempIsNoWal(q, q);
      if other == q {
        CompactedFileReplaysAlike(f, Contents(start, WalPath(q)));
      } else {
        assert WalPath(other)[..|other|] == other && WalPath(q)[..|q|] == q;
        SameElsewhere(before, start, TempPath(q), WalPath(other));
      }
    }
  }

  /** A complete append to a clean file adds one record to its scan. */
  ghost predicate AddsRecord(f: Format, before: seq<byte>, after: seq<byte>, rec: Record) {
    Sound(f) && f.encodable(rec) && Clean(f, before) ==> Clean(f, after) && Scan(f, after) == Scan(f, before) + [rec]
  }

  /** What replaying the log gives can be written and read back. */
  ghost predicate Rewritable(f: Format, data: seq<byte>) {
    Sound(f) && SurvivorsEncodable(f, data) && !Panics(f, data)
  }

  lemma RewrittenReadsBack(f: Format, data: seq<byte>)
    requires Rewritable(f, data)
    ensures !Panics(f, CompactedFile(f, data)) && Replayed(f, CompactedFile(f, data)) == Replayed(f, data)
  {
    CompactedFileReplaysAlike(f, data);
  }

  datatype Outcome = Done | Failed | Crashed

  class Writer {
    const format: Format
    const disk: Disk
    const queue: Queue
    var open: bool

    constructor (format: Format, disk: Disk, queue: Queue)
      ensures this.format == format && this.disk == disk && this.queue == queue && open
    {
      this.format, this.disk, this.queue, open := format, disk, queue, true;
    }

    function LogFile(): seq<byte> reads disk { Contents(disk.files, WalPath(queue)) }

    /** Appends one frame, or on failure some prefix of it; success makes the record part of a clean log. */
    method AppendRecord(rec: Record) returns (ok: bool)
      modifies disk
      ensures SameExcept(disk.files, old(disk.files), WalPath(queue))
      ensures old(LogFile()) <= LogFile() <= old(LogFile()) + format.frame(rec)
      ensures ok ==> LogFile() == old(LogFile()) + format.frame(rec)
      ensures ok ==> AddsRecord(format, old(LogFile()), LogFile(), rec)
      ensures !old(disk.failed) ==> (ok <==> open && !disk.failed)
    {
      if !open {
        ok := false;
        return;
      }
      var data := format.frame(rec);
      ghost var before := LogFile();
      var n := disk.Append(WalPath(queue), data);
      ok := n == |data|;
      if ok { ok := disk.Attempt(); } // the sync
      assert data[..|data|] == data;
      if ok && Sound(format) && format.encodable(rec) && Clean(format, before) {
        AppendToCleanIsDurable(format, before, rec);
      }
    }

    method WriteMessage(m: Message) returns (ok: bool)
      modifies disk
      ensures SameExcept(disk.files, old(disk.files), WalPath(queue))
      ensures ok ==> LogFile() == old(LogFile()) + format.frame(Put(m))
      ensures ok ==> AddsRecord(format, old(LogFile()), LogFile(), Put(m))
      ensures !old(disk.failed) ==> (ok <==> open && !disk.failed)
    {
      ok := AppendRecord(Put(m));
    }

    method WriteTombstone(id: MessageID) returns (ok: bool)
      modifies disk
      ensures SameExcept(disk.files, old(disk.files), WalPath(queue))
      ensures ok ==> LogFile() == old(LogFile()) + format.frame(Tombstone(id))
      ensures ok ==> AddsRecord(format, old(LogFile()), LogFile(), Tombstone(id))
      ensures !old(disk.failed) ==> (ok <==> open && !disk.failed)
    {
      ok := AppendRecord(Tombstone(id));
    }

    /** Writes the survivors to the temporary file, replacing whatever an earlier crash left there. */
    method WriteTemp(msgs: seq<Message>) returns (ok: bool)
      modifies disk
      ensures SameExcept(disk.files, old(disk.files), TempPath(queue))
      ensures OnlyTempSince(disk.states, |old(disk.states)|, old(disk.files), queue)
      ensures ok ==> TempPath(queue) in disk.files && disk.files[TempPath(queue)] == Frames(format, Puts(msgs))
      ensures disk.failed == (old(disk.failed) || !ok)
    {
      var tmp := TempPath(queue);
      ok := disk.Truncate(tmp);
      if !ok { return; }
      for i := 0 to |msgs|
        invariant SameExcept(disk.files, old(disk.files), tmp)
        invariant OnlyTempSince(disk.states, |old(disk.states)|, old(disk.files), queue)
        invariant tmp in disk.files && disk.files[tmp] == Frames(format, Puts(msgs[..i]))
        invariant disk.failed == old(disk.failed)
      {
        var data := format.frame(Put(msgs[i]));
        var n := disk.Append(tmp, data);
        if n != |data| {
          ok := false;
          return;
        }
        assert data[..|data|] == data;
        assert msgs[..i + 1] == msgs[..i] + [msgs[i]];
        PutsAppend(msgs[..i], msgs[i]);
        FramesAppend(format, Puts(msgs[..i]), Put(msgs[i]));
      }
      assert msgs[..|msgs|] == msgs;
      ok := disk.Attempt(); // the sync
    }

    /**
     Replay the log, write its survivors to the temporary file and check that as many messages read back. With sound
     frames it fails only if an operation on the directory does.
     */
    method PrepareTemp() returns (outcome: Outcome)
      requires Progresses(format)
      modifies disk
      ensures SameExcept(disk.files, old(disk.files), TempPath(queue)) && LogFile() == old(LogFile())
      ensures OnlyTempSince(disk.states, |old(disk.states)|, old(disk.files), queue)
      ensures outcome.Done? ==>
        TempPath(queue) in disk.files && disk.files[TempPath(queue)] == CompactedFile(format, LogFile())
      ensures outcome.Done? ==> disk.failed == old(disk.failed)
      ensures Rewritable(format, LogFile()) && !disk.failed ==> outcome.Done?
    {
      var ok := disk.Attempt(); // reading the log
      if !ok { return Failed; }
      var panicked, msgs := ReplayFile(format, LogFile());
      if panicked { return Crashed; }
      ok := WriteTemp(msgs);
      TempIsNoWal(queue, queue);
      SameElsewhere(disk.files, old(disk.files), TempPath(queue), WalPath(queue));
      if !ok { return Failed; }
      ok := disk.Attempt(); // reading the temporary file
      if !ok { return Failed; }
      var verified;
      panicked, verified := ReplayFile(format, disk.files[TempPath(queue)]);
      if Rewritable(format, LogFile()) { RewrittenReadsBack(format, LogFile()); }
      if panicked { return Crashed; }
      outcome := if |verified| == |msgs| then Done else Failed;
    }

    /**
     Close, prepare the temporary file, rename it over the log, reopen. Stopping after any step, at any byte of any
     write and with any leftover temporary file, leaves a directory from which every queue recovers as before. With
     sound frames it is done exactly if no operation on the directory fails, and the log is open again either way.
     */
    method Compact() returns (outcome: Outcome)
      requires Progresses(format)
      modifies this`open, disk
      ensures LogFile() == old(LogFile()) || LogFile() == CompactedFile(format, old(LogFile()))
      ensures outcome.Done? ==> open && LogFile() == CompactedFile(format, old(LogFile()))
      ensures Sound(format) && SurvivorsEncodable(format, old(LogFile())) ==>
        RecoversAlikeSince(format, disk.states, |old(disk.states)|, old(disk.files))
      ensures Rewritable(format, old(LogFile())) && !old(disk.failed) ==> (outcome.Done? <==> !disk.failed)
      ensures !disk.failed && !outcome.Crashed? ==> open
    {
      var closed := disk.Attempt();
      if !closed { return Failed; }
      open := false;
      outcome := PrepareTemp();
      OnlyTempRecovers(format, disk.states, |old(disk.states)|, old(disk.files), queue);
      if outcome.Crashed? { return; }
      ghost var safe := Sound(format) && SurvivorsEncodable(format, old(LogFile()));
      if outcome.Done? {
        ghost var before, states := disk.files, disk.states;
        var renamed := Replace();
        if renamed {
          if safe {
            RenameRecovers(format, before, old(disk.files), queue);
            RecoversMore(format, states, |old(disk.states)|, old(disk.files), disk.files);
          }
          open := disk.Attempt();
          return if open then Done else Failed;
        }
        RecoversMore(format, states, |old(disk.states)|, old(disk.files), disk.files) by {
          TempIsIgnored(format, disk.files, old(disk.files), queue);
        }
      }
      ghost var states := disk.states;
      Discard(old(disk.files));
      RecoversMore(format, states, |old(disk.states)|, old(disk.files), disk.files) by {
        TempIsIgnored(format, disk.files, old(disk.files), queue);
      }
      open := disk.Attempt();
      outcome := Failed;
    }

    method Replace() returns (ok: bool)
      requires TempPath(queue) in disk.files
      modifies disk
      ensures disk.states == old(disk.states) + [disk.files]
      ensures !ok ==> disk.files == old(disk.files)
      ensures ok ==> LogFile() == old(disk.files)[TempPath(queue)]
      ensures ok ==> disk.files == old(disk.files)[WalPath(queue) := old(disk.files)[TempPath(queue)]] - {TempPath(queue)}
      ensures disk.failed == (old(disk.failed) || !ok)
    {
      TempIsNoWal(queue, queue);
      ok := disk.Rename(TempPath(queue), WalPath(queue));
    }

    method Discard(ghost start: Files)
      requires SameExcept(disk.files, start, TempPath(queue))
      modifies disk
      ensures SameExcept(disk.files, start, TempPath(queue)) && LogFile() == Contents(start, WalPath(queue))
      ensures disk.states == old(disk.states) + [disk.files] && disk.failed == old(disk.failed)
    {
      disk.Remove(TempPath(queue));
      TempIsNoWal(queue, queue);
      assert disk.files - {TempPath(queue)} == old(disk.files) - {TempPath(queue)};
      SameElsewhere(disk.files, start, TempPath(queue), WalPath(queue));
    }
  }
}
