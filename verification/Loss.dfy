/** A publish that succeeds and is lost: its record goes behind the torn tail that a crash left. */
module Loss {
  import opened Core
  import opened Wire
  import opened Log
  import opened Replay
  import opened Broker
  import opened Runs
  import opened Witnesses
  import opened Storage

  lemma DriveNothing(f: Format, start: State)
    requires Sound(f) && Initial(start) && Blank(start)
    ensures DrivenRun(f, start, map[], [], start)
  {
    EmptyDirectoryIsJoined(f, start);
  }

  lemma EncodesOne(f: Format, start: State, files: LogFiles, steps: seq<Step>, s: State, step: Step)
    requires Run(start, steps) == Some(s) && EncodesAll(f, start, files, steps)
    requires Encodes(f, s, FilesOf(f, start, files, steps), step)
    ensures EncodesAll(f, start, files, steps + [step])
    ensures FilesOf(f, start, files, steps + [step]) == FilesAfter(f, s, FilesOf(f, start, files, steps), step)
  {
    var longer := steps + [step];
    assert longer[..|longer| - 1] == steps && longer[|longer| - 1] == step;
  }

  /** One more step of a run over files. */
  lemma DriveOne(f: Format, start: State, steps: seq<Step>, s: State, step: Step, s': State)
    requires DrivenRun(f, start, map[], steps, s) && Next(s, step) == Some(s')
    requires Encodes(f, s, FilesOf(f, start, map[], steps), step)
    ensures DrivenRun(f, start, map[], steps + [step], s')
    ensures FilesOf(f, start, map[], steps + [step]) == FilesAfter(f, s, FilesOf(f, start, map[], steps), step)
  {
    RunOne(start, steps, s, step);
    EncodesOne(f, start, map[], steps, s, step);
  }

  // ---------------------------------------------------------------------------
  // The crash
  // ---------------------------------------------------------------------------

  /** A restart after a crash that left two bytes of the first frame of a queue. */
  function Crash(m: Message, maxRetries: int32): Step { SRestart(map[m.queue := Tear(Put(m), 2)], maxRetries) }

  lemma CrashedState(start: State, m: Message) returns (s: State)
    requires Blank(start)
    ensures Next(start, Crash(m, start.maxRetries)) == Some(s)
    ensures s.torn == {m.queue} && !s.closing && !s.closed && s.tasks == map[] && s.topics == map[] && s.logs == map[]
    ensures s.issued == {} && s.landed == start.landed
  {
    s := Restart(start, map[m.queue := Tear(Put(m), 2)], start.maxRetries);
    assert {} + map[m.queue := Tear(Put(m), 2)].Keys == {m.queue};
    assert s.topics == map[];
  }

  lemma CrashEncodes(f: Format, start: State, m: Message)
    requires Sound(f) && f.encodable(Put(m)) && |f.frame(Put(m))| > 2 && start.torn == {}
    ensures Encodes(f, start, map[], Crash(m, start.maxRetries))
  {
    assert !f.decode([]).Ok? && Rest(f, []) == [];
    CutIsTorn(f, Put(m), 2);
  }

  lemma CrashedFile(f: Format, start: State, m: Message)
    requires |f.frame(Put(m))| > 2
    ensures FileOf(FilesAfter(f, start, map[], Crash(m, start.maxRetries)), m.queue) == f.frame(Put(m))[..2]
  {
    FileAfterRestart(f, start, map[], map[m.queue := Tear(Put(m), 2)], start.maxRetries, m.queue);
    assert [] + f.frame(Put(m))[..2] == f.frame(Put(m))[..2];
  }

  // ---------------------------------------------------------------------------
  // The publish
  // ---------------------------------------------------------------------------

  lemma SwallowEncodes(c: Codec, s: State, files: LogFiles, m: Message)
    requires Lawful(c) && Encodable(c, Put(m)) && s.tasks == map[0 := Ready(m)] && FileOf(files, m.queue) == Frame(c, Put(m))[..2]
    ensures Encodes(Binary(c), s, files, SWriteRecord(0))
  {
    var f, frame := Binary(c), Frame(c, Put(m));
    BinaryIsSound(c);
    assert f.frame(Put(m)) == frame;
    assert f.decode(frame[..2]).Torn?;
    assert Rest(f, frame[..2]) == frame[..2];
    ShiftedMagicIsTorn(c, Put(m), 2, Put(m), []);
    assert frame + [] == frame;
  }

  /** The run so far leaves the torn bytes of the crash, and only them, in the file. */
  ghost predicate After(c: Codec, start: State, steps: seq<Step>, s: State, m: Message) {
    && DrivenRun(Binary(c), start, map[], steps, s)
    && FileOf(FilesOf(Binary(c), start, map[], steps), m.queue) == Frame(c, Put(m))[..2]
  }

  lemma AfterCrash(c: Codec, start: State, m: Message) returns (steps: seq<Step>, s: State)
    requires Lawful(c) && Encodable(c, Put(m)) && Initial(start) && Blank(start)
    ensures After(c, start, steps, s, m)
    ensures s.torn == {m.queue} && !s.closing && !s.closed && s.tasks == map[] && s.issued == {} && s.landed == start.landed
  {
    var f := Binary(c);
    BinaryIsSound(c);
    DriveNothing(f, start);
    s := CrashedState(start, m);
    CrashEncodes(f, start, m);
    CrashedFile(f, start, m);
    DriveOne(f, start, [], start, Crash(m, start.maxRetries), s);
    steps := [] + [Crash(m, start.maxRetries)];
  }

  lemma AfterMemory(c: Codec, start: State, steps: seq<Step>, s: State, m: Message, step: Step, s': State)
    requires After(c, start, steps, s, m) && (step.SPublish? || step.SInitQueue?) && Next(s, step) == Some(s')
    ensures After(c, start, steps + [step], s', m)
  {
    DriveOne(Binary(c), start, steps, s, step, s');
  }

  lemma AfterLoad(c: Codec, start: State, m: Message) returns (steps: seq<Step>, s: State)
    requires Lawful(c) && Encodable(c, Put(m)) && Initial(start) && Blank(start) && m.retryCount == 0
    ensures After(c, start, steps, s, m) && m.queue in s.topics && m.id in s.home
    ensures m.queue in s.torn && !s.closed && s.tasks == map[0 := Ready(m)] && s.landed == start.landed
  {
    var s1, s2;
    steps, s1 := AfterCrash(c, start, m);
    s2 := DoPublish(s1, m);
    AfterMemory(c, start, steps, s1, m, SPublish(0, m), s2);
    steps := steps + [SPublish(0, m)];
    s := DoInitQueue(s2, m);
    AfterMemory(c, start, steps, s2, m, SInitQueue(0), s);
    steps := steps + [SInitQueue(0)];
  }

  /**
   For every codec and every message: on a queue whose file a crash left with two bytes, the publish succeeds, the
   message reaches the topic, and no replay of the file returns it.
   */
  lemma PublishedButLost(c: Codec, start: State, m: Message) returns (steps: seq<Step>, s: State)
    requires Lawful(c) && Encodable(c, Put(m)) && Initial(start) && Blank(start) && m.retryCount == 0
    ensures DrivenRun(Binary(c), start, map[], steps, s) && m.queue in s.topics && m in s.topics[m.queue]
    ensures m.id !in Ids(Replayed(Binary(c), FileOf(FilesOf(Binary(c), start, map[], steps), m.queue)))
  {
    var f := Binary(c);
    var s1;
    steps, s1 := AfterLoad(c, start, m);
    SwallowEncodes(c, s1, FilesOf(f, start, map[], steps), m);
    var s2 := DoSwallow(s1, m);
    DriveOne(f, start, steps, s1, SWriteRecord(0), s2);
    steps := steps + [SWriteRecord(0)];
    s := DoEnter(s2, m);
    DriveOne(f, start, steps, s2, SEnterTopic(0), s);
    steps := steps + [SEnterTopic(0)];
    ReplayedExactlyInFiles(f, start, map[], steps, s, m.queue, m.id);
  }
}
