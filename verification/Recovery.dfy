/** The exactly-once fault tolerance machine: journal, replay and background checkpoints.
    The circuit thread, the checkpoint thread, the output threads and crashes interleave freely;
    only the checkpoint, the journal and what the outside world has seen survive a crash. */
module Recovery {
  import opened Common

  type Name = string
  type Record(==, !new)
  type CircuitState(==, !new)
  type Output(==, !new)

  /** The records that each input endpoint contributes to one step. */
  type StepInput = map<Name, seq<Record>>

  /** An endpoint replays either by reading its source again, so that its journal records hold only
      the offset at the end of the step, or from data that it puts into the journal. */
  datatype Kind = Rereads | Logs

  /** A pipeline with a fixed set of inputs and outputs and a deterministic circuit. */
  datatype Pipeline = Pipeline(
    inputs: set<Name>,
    kind: Name -> Kind,
    source: (Name, nat) -> Record,
    hash: seq<Record> -> int,
    initial: CircuitState,
    next: (CircuitState, StepInput) -> CircuitState,
    outputs: set<Name>,
    output: (CircuitState, StepInput, Name) -> Output,
    empty: Output) // a batch without changes

  datatype InputLog = InputLog(seek: nat, data: seq<Record>, records: nat, hash: int)

  datatype StepRecord = StepRecord(step: nat, logs: map<Name, InputLog>)

  datatype Checkpoint = Checkpoint(step: nat, circuit: CircuitState, offsets: map<Name, nat>, processed: nat)

  /** An output batch on its way to an endpoint, with its step and progress label. */
  datatype Item = Item(step: nat, batch: Output, processed: nat)

  datatype Running = Running(checkpoint: Checkpoint, written: bool)

  /** Where each input reader stands, and what a checkpoint would record for it. */
  datatype Readers = Readers(position: map<Name, nat>, resume: map<Name, nat>)

  /** The queue of each output endpoint, and the last label that it has reported. */
  datatype Outboxes = Outboxes(queues: map<Name, seq<Item>>, reported: map<Name, nat>)

  /** The volatile state of a running pipeline process. */
  datatype Process = Process(
    base: nat, // the step of the checkpoint it was opened from
    step: nat,
    circuit: CircuitState,
    readers: Readers,
    replay: Option<StepRecord>,
    ingested: Option<StepInput>, // between `input_step` and `step_circuit`
    processed: nat,
    out: Outboxes,
    completed: nat,
    running: Option<Running>)

  datatype World = World(
    checkpoint: Checkpoint,
    journal: map<nat, StepRecord>,
    process: Option<Process>,
    visible: map<Name, seq<(nat, Output)>>, // what each output endpoint has made visible
    failed: bool, // a replay did not reproduce the journal
    history: seq<StepInput>) // inputs of every step ever journaled

  // ---------------------------------------------------------------- what a history means

  /** The circuit's state after the steps of `h`. */
  function State(p: Pipeline, h: seq<StepInput>): CircuitState
  {
    if h == [] then p.initial else p.next(State(p, h[..|h| - 1]), h[|h| - 1])
  }

  function RecordsOf(b: StepInput, n: Name): seq<Record>
  {
    if n in b then b[n] else []
  }

  /** Where input `n` stands after the steps of `h`. Endpoints that log their data have no offset. */
  function Offset(p: Pipeline, h: seq<StepInput>, n: Name): nat
  {
    if h == [] || p.kind(n).Logs? then 0
    else Offset(p, h[..|h| - 1], n) + |RecordsOf(h[|h| - 1], n)|
  }

  /** Number of records in one step. */
  ghost function Total(b: StepInput): nat
  {
    if b == map[] then 0
    else
      var n :| n in b;
      |b[n]| + Total(b - {n})
  }

  /** Number of records in all steps of `h`. */
  ghost function Count(h: seq<StepInput>): nat
  {
    if h == [] then 0 else Count(h[..|h| - 1]) + Total(h[|h| - 1])
  }

  /** Nothing is counted exactly if every input is empty. */
  lemma {:induction false} TotalZero(b: StepInput)
    ensures Total(b) == 0 <==> forall n | n in b :: b[n] == []
    decreases b
  {
    if b != map[] {
      var n :| n in b && Total(b) == |b[n]| + Total(b - {n});
      TotalZero(b - {n});
      assert forall m | m in b && m != n :: (b - {n})[m] == b[m];
    }
  }

  /** The total is a sum over the inputs: any one of them contributes the number of its records. */
  lemma {:induction false} TotalRemove(b: StepInput, a: Name)
    requires a in b
    ensures Total(b) == |b[a]| + Total(b - {a})
    decreases b
  {
    var n :| n in b && Total(b) == |b[n]| + Total(b - {n});
    if n != a {
      TotalRemove(b - {n}, a);
      TotalRemove(b - {a}, n);
      assert b - {n} - {a} == b - {a} - {n};
    }
  }

  /** An input that joins a step adds the number of its records. */
  lemma TotalInsert(b: StepInput, a: Name, rs: seq<Record>)
    requires a !in b
    ensures Total(b[a := rs]) == Total(b) + |rs|
  {
    TotalRemove(b[a := rs], a);
    assert b[a := rs] - {a} == b;
  }

  /** Every input's records of two steps, one after the other. */
  function Joined(b: StepInput, c: StepInput): StepInput
    requires b.Keys == c.Keys
  {
    map n | n in b :: b[n] + c[n]
  }

  lemma {:induction false} TotalJoined(b: StepInput, c: StepInput)
    requires b.Keys == c.Keys
    ensures Total(Joined(b, c)) == Total(b) + Total(c)
    decreases b
  {
    if b != map[] {
      var n :| n in b;
      TotalRemove(b, n);
      TotalRemove(c, n);
      TotalRemove(Joined(b, c), n);
      TotalJoined(b - {n}, c - {n});
      assert Joined(b, c) - {n} == Joined(b - {n}, c - {n});
    } else {
      assert c == map[] && Joined(b, c) == map[];
    }
  }

  function Slice(p: Pipeline, n: Name, from: nat, len: nat): seq<Record>
  {
    seq(len, i requires 0 <= i => p.source(n, from + i))
  }

  // ---------------------------------------------------------------- journal records

  function LogOf(p: Pipeline, n: Name, from: nat, rs: seq<Record>): InputLog
  {
    match p.kind(n)
    case Rereads => InputLog(from + |rs|, [], |rs|, p.hash(rs))
    case Logs => InputLog(0, rs, |rs|, p.hash(rs))
  }

  function Start(offsets: map<Name, nat>, n: Name): nat
  {
    if n in offsets then offsets[n] else 0
  }

  function RecordOf(p: Pipeline, step: nat, position: map<Name, nat>, b: StepInput): StepRecord
  {
    StepRecord(step, map n | n in p.inputs :: LogOf(p, n, Start(position, n), RecordsOf(b, n)))
  }

  /** What a reader at offset `from` flushes when asked to replay `log`. */
  function ReadBack(p: Pipeline, n: Name, from: nat, log: InputLog): seq<Record>
  {
    match p.kind(n)
    case Rereads => if from <= log.seek then Slice(p, n, from, log.seek - from) else []
    case Logs => log.data
  }

  /** Replays a journal record, or fails if it is for the wrong step or inputs, or if the record
      counts or hashes differ from the logged ones. */
  function ReplayInput(p: Pipeline, step: nat, position: map<Name, nat>, r: StepRecord): Option<StepInput>
  {
    if r.step != step || r.logs.Keys != p.inputs then None
    else
      var b := map n | n in p.inputs :: ReadBack(p, n, Start(position, n), r.logs[n]);
      if forall n | n in p.inputs :: |b[n]| == r.logs[n].records && p.hash(b[n]) == r.logs[n].hash
      then Some(b) else None
  }

  /** Reader positions after flushing `b`. */
  function Advanced(p: Pipeline, position: map<Name, nat>, b: StepInput): map<Name, nat>
  {
    map n | n in p.inputs :: if p.kind(n).Rereads? then Start(position, n) + |RecordsOf(b, n)| else 0
  }

  /** The resume points that a journal record holds. */
  function Resumes(r: StepRecord): map<Name, nat>
  {
    map n | n in r.logs :: r.logs[n].seek
  }

  function Read(journal: map<nat, StepRecord>, step: nat): Option<StepRecord>
  {
    if step in journal then Some(journal[step]) else None
  }

  // ---------------------------------------------------------------- steps of the machine

  datatype Event =
    | Ingest(input: StepInput) // `input_step`, which journals the step
    | ReplayStep // `input_step` while replaying, which checks the step against the journal
    | Execute // `step_circuit`, `push_output` and `next_step`
    | Send(endpoint: Name) // one turn of an output thread
    | UpdateCompleted(least: nat) // with a possibly stale minimum of the reported labels
    | BeginCheckpoint
    | WriteCheckpoint
    | AbandonCheckpoint
    | FinishCheckpoint(deleted: set<nat>) // deletes journal entries, or only some if that fails
    | Stop(last: StepInput, sent: set<Name>) // an orderly end amid a step, which is then not journaled
    | Crash
    | Restart

  function Open(p: Pipeline, c: Checkpoint, journal: map<nat, StepRecord>): Process
  {
    Process(c.step, c.step, c.circuit,
            Readers(map n | n in p.inputs :: Start(c.offsets, n), c.offsets),
            Read(journal, c.step), None, c.processed,
            Outboxes(map e | e in p.outputs :: [], map e | e in p.outputs :: c.processed), c.processed, None)
  }

  /** What the readers may deliver next: rereading endpoints deliver their source in order. */
  ghost predicate Deliverable(p: Pipeline, position: map<Name, nat>, b: StepInput)
  {
    && b.Keys == p.inputs
    && forall n | n in p.inputs && p.kind(n).Rereads? :: b[n] == Slice(p, n, Start(position, n), |b[n]|)
  }

  ghost predicate EnabledIn(p: Pipeline, w: World, q: Process, e: Event)
  {
    match e
    case Ingest(b) => q.ingested.None? && q.replay.None? && Deliverable(p, q.readers.position, b)
    case ReplayStep => q.ingested.None? && q.replay.Some?
    case Execute => q.ingested.Some?
    case Send(n) => n in q.out.queues && n in q.out.reported && n in w.visible && q.out.queues[n] != []
    case UpdateCompleted(least) => least <= q.processed && forall n | n in q.out.reported :: least <= q.out.reported[n]
    case BeginCheckpoint => q.ingested.None? && q.replay.None? && q.running.None?
    case WriteCheckpoint =>
      q.running.Some? && !q.running.value.written && q.completed >= q.running.value.checkpoint.processed
    case AbandonCheckpoint => q.running.Some? && !q.running.value.written
    case FinishCheckpoint(deleted) =>
      && q.running.Some? && q.running.value.written
      && forall k | k in deleted :: k < q.running.value.checkpoint.step
    case Stop(b, sent) =>
      // An output thread that has already looked at the state takes one more batch from its queue.
      && q.ingested.None? && q.replay.None? && Deliverable(p, q.readers.position, b)
      && forall n | n in sent :: n in q.out.queues && n in w.visible && q.out.queues[n] == []
    case Crash => true
    case Restart => false
  }

  ghost predicate Enabled(p: Pipeline, w: World, e: Event)
  {
    match w.process
    case None => e.Restart?
    case Some(q) => EnabledIn(p, w, q, e)
  }

  ghost function Executed(p: Pipeline, journal: map<nat, StepRecord>, q: Process, b: StepInput): Process
  {
    var processed := q.processed + Total(b);
    q.(step := q.step + 1,
       circuit := p.next(q.circuit, b),
       ingested := None,
       processed := processed,
       replay := if q.replay.Some? then Read(journal, q.step + 1) else None,
       out := Outboxes(
         map n | n in q.out.queues :: q.out.queues[n] + [Item(q.step + 1, p.output(q.circuit, b, n), processed)],
         q.out.reported))
  }

  ghost predicate Has(v: seq<(nat, Output)>, step: nat)
  {
    exists i | 0 <= i < |v| :: v[i].0 == step
  }

  /** A fault-tolerant endpoint discards a step that it has already output. */
  ghost function Show(v: seq<(nat, Output)>, i: Item): seq<(nat, Output)>
  {
    if Has(v, i.step) then v else v + [(i.step, i.batch)]
  }

  ghost function Ingested(p: Pipeline, w: World, q: Process, b: StepInput): World
  {
    var r := RecordOf(p, q.step, q.readers.position, b);
    w.(journal := w.journal[q.step := r], history := w.history + [b],
       process := Some(q.(ingested := Some(b), readers := Readers(Advanced(p, q.readers.position, b), Resumes(r)))))
  }

  ghost function Replayed(p: Pipeline, w: World, q: Process, r: StepRecord): World
  {
    match ReplayInput(p, q.step, q.readers.position, r)
    case None => w.(failed := true, process := None)
    case Some(b) =>
      w.(process := Some(q.(ingested := Some(b), readers := Readers(Advanced(p, q.readers.position, b), Resumes(r)))))
  }

  ghost function Sent(w: World, q: Process, n: Name): World
    requires n in q.out.queues && n in q.out.reported && n in w.visible && q.out.queues[n] != []
  {
    var i := q.out.queues[n][0];
    w.(visible := w.visible[n := Show(w.visible[n], i)],
       process := Some(q.(out := Outboxes(q.out.queues[n := q.out.queues[n][1..]], q.out.reported[n := i.processed]))))
  }

  /** Once the pipeline is terminated, `write_step` does not journal the step, but its output is still
      pushed. The process ends, and only what was sent remains. */
  ghost function Stopped(p: Pipeline, w: World, q: Process, b: StepInput, sent: set<Name>): World
  {
    w.(process := None,
       visible := map n | n in w.visible ::
         if n in sent then Show(w.visible[n], Item(q.step + 1, p.output(q.circuit, b, n), q.processed + Total(b)))
         else w.visible[n])
  }

  ghost function CheckpointOf(q: Process): Checkpoint
  {
    Checkpoint(q.step, q.circuit, q.readers.resume, q.processed)
  }

  ghost function Written(w: World, q: Process, c: Checkpoint): World
  {
    w.(checkpoint := c, process := Some(q.(running := Some(Running(c, true)))))
  }

  ghost function StepIn(p: Pipeline, w: World, q: Process, e: Event): World
    requires EnabledIn(p, w, q, e)
  {
    match e
    case Ingest(b) => Ingested(p, w, q, b)
    case ReplayStep => Replayed(p, w, q, q.replay.value)
    case Execute => w.(process := Some(Executed(p, w.journal, q, q.ingested.value)))
    case Send(n) => Sent(w, q, n)
    case UpdateCompleted(least) => w.(process := Some(q.(completed := Max(q.completed, least))))
    case BeginCheckpoint => w.(process := Some(q.(running := Some(Running(CheckpointOf(q), false)))))
    case WriteCheckpoint => Written(w, q, q.running.value.checkpoint)
    case AbandonCheckpoint => w.(process := Some(q.(running := None)))
    case FinishCheckpoint(deleted) => w.(journal := w.journal - deleted, process := Some(q.(running := None)))
    case Stop(b, sent) => Stopped(p, w, q, b, sent)
    case Crash => w.(process := None)
  }

  ghost function Step(p: Pipeline, w: World, e: Event): World
    requires Enabled(p, w, e)
  {
    match w.process
    case None => w.(process := Some(Open(p, w.checkpoint, w.journal)))
    case Some(q) => StepIn(p, w, q, e)
  }

  ghost predicate IsRun(p: Pipeline, w: World, es: seq<Event>)
    decreases |es|
  {
    es == [] || (Enabled(p, w, es[0]) && IsRun(p, Step(p, w, es[0]), es[1..]))
  }

  ghost function Run(p: Pipeline, w: World, es: seq<Event>): World
    requires IsRun(p, w, es)
    decreases |es|
  {
    if es == [] then w else Run(p, Step(p, w, es[0]), es[1..])
  }

  /** What `FtState::create` leaves on storage, before the first process runs. */
  function Created(p: Pipeline): World
  {
    World(Checkpoint(0, p.initial, map[], 0), map[], None, map e | e in p.outputs :: [], false, [])
  }

  // ---------------------------------------------------------------- the invariant

  /** Rereading endpoints deliver their source in order. */
  ghost predicate InputOk(p: Pipeline, h: seq<StepInput>, b: StepInput)
  {
    && b.Keys == p.inputs
    && forall n | n in p.inputs && p.kind(n).Rereads? :: b[n] == Slice(p, n, Offset(p, h, n), |b[n]|)
  }

  ghost predicate HistoryOk(p: Pipeline, h: seq<StepInput>)
  {
    forall k | 0 <= k < |h| :: Legal(p, h, k)
  }

  ghost predicate Legal(p: Pipeline, h: seq<StepInput>, k: nat)
    requires k < |h|
  {
    InputOk(p, h[..k], h[k])
  }

  ghost predicate AtOffsets(p: Pipeline, h: seq<StepInput>, m: map<Name, nat>)
  {
    forall n | n in p.inputs :: Start(m, n) == Offset(p, h, n)
  }

  ghost predicate CheckpointOk(p: Pipeline, h: seq<StepInput>, c: Checkpoint)
  {
    && c.step <= |h|
    && c.circuit == State(p, h[..c.step])
    && AtOffsets(p, h[..c.step], c.offsets)
    && c.processed == Count(h[..c.step])
  }

  /** The journal record that step `|h|` leaves when it consumes `b` after `h`. */
  function RecordFor(p: Pipeline, h: seq<StepInput>, b: StepInput): StepRecord
  {
    StepRecord(|h|, map n | n in p.inputs :: LogOf(p, n, Offset(p, h, n), RecordsOf(b, n)))
  }

  /** The journal covers every step from `from` on, and holds nothing from the future. */
  ghost predicate Covers(p: Pipeline, h: seq<StepInput>, journal: map<nat, StepRecord>, from: nat)
  {
    && (forall k | from <= k < |h| :: Journaled(p, h, journal, k))
    && (forall k | k in journal :: k < |h|)
  }

  ghost predicate Journaled(p: Pipeline, h: seq<StepInput>, journal: map<nat, StepRecord>, k: nat)
    requires k < |h|
  {
    k in journal && journal[k] == RecordFor(p, h[..k], h[k])
  }

  ghost predicate RunningOk(p: Pipeline, h: seq<StepInput>, c: Checkpoint, step: nat, running: Option<Running>)
  {
    running.Some? ==>
      && CheckpointOk(p, h, running.value.checkpoint)
      && c.step <= running.value.checkpoint.step <= step
      && (running.value.written ==> running.value.checkpoint == c)
  }

  /** Where the computation stands: what has been executed is a prefix of the history. */
  ghost predicate CircuitOk(p: Pipeline, h: seq<StepInput>, step: nat, circuit: CircuitState, processed: nat)
  {
    step <= |h| && circuit == State(p, h[..step]) && processed == Count(h[..step])
  }

  /** Where the inputs stand: after the executed steps and the step that was ingested, if any. */
  ghost predicate InputsOk(p: Pipeline, h: seq<StepInput>, step: nat, ingested: Option<StepInput>,
                           replay: Option<StepRecord>, position: map<Name, nat>, resume: map<Name, nat>)
    requires step <= |h|
  {
    && (replay.Some? ==> step < |h| && replay.value == RecordFor(p, h[..step], h[step]))
    && match ingested
       case None =>
         && AtOffsets(p, h[..step], position) && AtOffsets(p, h[..step], resume)
         && (replay.None? ==> step == |h|)
       case Some(b) =>
         && step < |h| && b == h[step]
         && AtOffsets(p, h[..step + 1], position) && AtOffsets(p, h[..step + 1], resume)
         && (replay.None? ==> step + 1 == |h|)
  }

  ghost predicate ProcessOk(p: Pipeline, h: seq<StepInput>, c: Checkpoint, q: Process)
  {
    && q.base <= c.step <= q.step
    && CircuitOk(p, h, q.step, q.circuit, q.processed)
    && InputsOk(p, h, q.step, q.ingested, q.replay, q.readers.position, q.readers.resume)
    && RunningOk(p, h, c, q.step, q.running)
  }

  ghost predicate Inv(p: Pipeline, w: World)
  {
    && !w.failed
    && HistoryOk(p, w.history)
    && CheckpointOk(p, w.history, w.checkpoint)
    && Covers(p, w.history, w.journal, w.checkpoint.step)
    && (w.process.Some? ==> ProcessOk(p, w.history, w.checkpoint, w.process.value))
  }

  // ---------------------------------------------------------------- histories

  lemma StateNext(p: Pipeline, h: seq<StepInput>, k: nat)
    requires k < |h|
    ensures State(p, h[..k + 1]) == p.next(State(p, h[..k]), h[k])
    ensures Count(h[..k + 1]) == Count(h[..k]) + Total(h[k])
    ensures forall n :: Offset(p, h[..k + 1], n)
                        == if p.kind(n).Logs? then 0 else Offset(p, h[..k], n) + |RecordsOf(h[k], n)|
  {
    assert h[..k + 1][..k] == h[..k];
  }

  lemma Prefix(h: seq<StepInput>, b: StepInput, k: nat)
    requires k <= |h|
    ensures (h + [b])[..k] == h[..k]
  {
  }

  lemma CheckpointKept(p: Pipeline, h: seq<StepInput>, b: StepInput, c: Checkpoint)
    requires CheckpointOk(p, h, c)
    ensures CheckpointOk(p, h + [b], c)
  {
    Prefix(h, b, c.step);
  }

  lemma LegalKept(p: Pipeline, h: seq<StepInput>, b: StepInput, k: nat)
    requires k < |h| && Legal(p, h, k)
    ensures Legal(p, h + [b], k)
  {
    Prefix(h, b, k);
  }

  lemma HistoryExtended(p: Pipeline, h: seq<StepInput>, b: StepInput)
    requires HistoryOk(p, h) && InputOk(p, h, b)
    ensures HistoryOk(p, h + [b])
  {
    var g := h + [b];
    assert g[..|h|] == h;
    assert Legal(p, g, |h|);
    forall k | 0 <= k < |h| ensures Legal(p, g, k) {
      LegalKept(p, h, b, k);
    }
  }

  lemma LegalPrefix(p: Pipeline, h: seq<StepInput>, k: nat, i: nat)
    requires i < k <= |h| && Legal(p, h, i)
    ensures Legal(p, h[..k], i)
  {
    assert h[..k][..i] == h[..i];
  }

  lemma HistoryPrefix(p: Pipeline, h: seq<StepInput>, k: nat)
    requires HistoryOk(p, h) && k < |h|
    ensures HistoryOk(p, h[..k]) && InputOk(p, h[..k], h[k])
  {
    assert Legal(p, h, k);
    forall i | 0 <= i < k ensures Legal(p, h[..k], i) {
      LegalPrefix(p, h, k, i);
    }
  }

  lemma JournaledKept(p: Pipeline, h: seq<StepInput>, b: StepInput, journal: map<nat, StepRecord>, k: nat)
    requires k < |h| && Journaled(p, h, journal, k)
    ensures Journaled(p, h + [b], journal[|h| := RecordFor(p, h, b)], k)
  {
    Prefix(h, b, k);
  }

  lemma JournalExtended(p: Pipeline, h: seq<StepInput>, b: StepInput, journal: map<nat, StepRecord>, from: nat)
    requires Covers(p, h, journal, from)
    ensures Covers(p, h + [b], journal[|h| := RecordFor(p, h, b)], from)
  {
    var g, after := h + [b], journal[|h| := RecordFor(p, h, b)];
    assert g[..|h|] == h;
    assert Journaled(p, g, after, |h|);
    forall k | from <= k < |h| ensures Journaled(p, g, after, k) {
      JournaledKept(p, h, b, journal, k);
    }
  }

  lemma CoversFewer(p: Pipeline, h: seq<StepInput>, journal: map<nat, StepRecord>, from: nat, later: nat)
    requires Covers(p, h, journal, from) && from <= later
    ensures Covers(p, h, journal, later)
  {
  }

  lemma JournalTruncated(p: Pipeline, h: seq<StepInput>, journal: map<nat, StepRecord>, from: nat, deleted: set<nat>)
    requires Covers(p, h, journal, from)
    requires forall k | k in deleted :: k < from
    ensures Covers(p, h, journal - deleted, from)
  {
    assert forall k | from <= k < |h| :: Journaled(p, h, journal, k) ==> Journaled(p, h, journal - deleted, k);
  }

  lemma ReadNext(p: Pipeline, h: seq<StepInput>, journal: map<nat, StepRecord>, from: nat, k: nat)
    requires Covers(p, h, journal, from) && from <= k <= |h|
    ensures Read(journal, k) == if k < |h| then Some(RecordFor(p, h[..k], h[k])) else None
  {
    if k < |h| {
      assert Journaled(p, h, journal, k);
    }
  }

  lemma RecordMatches(p: Pipeline, h: seq<StepInput>, position: map<Name, nat>, b: StepInput)
    requires AtOffsets(p, h, position)
    ensures RecordOf(p, |h|, position, b) == RecordFor(p, h, b)
  {
    var r, s := RecordOf(p, |h|, position, b).logs, RecordFor(p, h, b).logs;
    assert r.Keys == s.Keys;
    assert forall n | n in r :: r[n] == s[n];
  }

  /** Positions and resume points after a step are those of the extended history. */
  lemma OffsetsAdvance(p: Pipeline, h: seq<StepInput>, k: nat, position: map<Name, nat>)
    requires k < |h| && AtOffsets(p, h[..k], position)
    ensures AtOffsets(p, h[..k + 1], Advanced(p, position, h[k]))
    ensures AtOffsets(p, h[..k + 1], Resumes(RecordFor(p, h[..k], h[k])))
  {
    StateNext(p, h, k);
  }

  /** Replaying a journal record feeds the circuit exactly what the original step consumed. */
  lemma ReplayReproduces(p: Pipeline, h: seq<StepInput>, b: StepInput, position: map<Name, nat>)
    requires InputOk(p, h, b) && AtOffsets(p, h, position)
    ensures ReplayInput(p, |h|, position, RecordFor(p, h, b)) == Some(b)
  {
    var r := RecordFor(p, h, b);
    var c := map n | n in p.inputs :: ReadBack(p, n, Start(position, n), r.logs[n]);
    assert r.logs.Keys == p.inputs;
    forall n | n in p.inputs ensures c[n] == b[n] {
      assert r.logs[n] == LogOf(p, n, Offset(p, h, n), b[n]);
    }
    assert c.Keys == b.Keys;
    assert c == b;
  }

  // ---------------------------------------------------------------- every step keeps the invariant

  lemma IngestKeeps(p: Pipeline, w: World, q: Process, b: StepInput)
    requires Inv(p, w) && w.process == Some(q) && EnabledIn(p, w, q, Ingest(b))
    ensures Inv(p, Ingested(p, w, q, b))
  {
    var h := w.history;
    var g := h + [b];
    assert h[..|h|] == h && g[..|h|] == h && g[..|h| + 1] == g;
    RecordMatches(p, h, q.readers.position, b);
    assert InputOk(p, h, b);
    HistoryExtended(p, h, b);
    JournalExtended(p, h, b, w.journal, w.checkpoint.step);
    CheckpointKept(p, h, b, w.checkpoint);
    OffsetsAdvance(p, g, |h|, q.readers.position);
    if q.running.Some? {
      CheckpointKept(p, h, b, q.running.value.checkpoint);
    }
  }

  /** The replay of step `k` succeeds and leaves the inputs behind that step. */
  lemma ReplayLeaves(p: Pipeline, h: seq<StepInput>, k: nat, position: map<Name, nat>, r: StepRecord)
    requires HistoryOk(p, h) && k < |h| && AtOffsets(p, h[..k], position) && r == RecordFor(p, h[..k], h[k])
    ensures ReplayInput(p, k, position, r) == Some(h[k])
    ensures InputsOk(p, h, k, Some(h[k]), Some(r), Advanced(p, position, h[k]), Resumes(r))
  {
    HistoryPrefix(p, h, k);
    ReplayReproduces(p, h[..k], h[k], position);
    OffsetsAdvance(p, h, k, position);
  }

  lemma ReplayStepKeeps(p: Pipeline, w: World, q: Process, r: StepRecord)
    requires Inv(p, w) && w.process == Some(q) && q.ingested.None? && q.replay == Some(r)
    ensures Inv(p, Replayed(p, w, q, r)) && Replayed(p, w, q, r).process.Some?
  {
    ReplayLeaves(p, w.history, q.step, q.readers.position, r);
  }

  lemma ExecutedInputs(p: Pipeline, h: seq<StepInput>, journal: map<nat, StepRecord>, from: nat, q: Process,
                       b: StepInput)
    requires Covers(p, h, journal, from) && from <= q.step < |h| && q.ingested == Some(b)
    requires InputsOk(p, h, q.step, q.ingested, q.replay, q.readers.position, q.readers.resume)
    ensures
      var r := Executed(p, journal, q, b);
      InputsOk(p, h, r.step, r.ingested, r.replay, r.readers.position, r.readers.resume)
  {
    ReadNext(p, h, journal, from, q.step + 1);
  }

  lemma ExecuteKeeps(p: Pipeline, w: World, q: Process, b: StepInput)
    requires Inv(p, w) && w.process == Some(q) && q.ingested == Some(b)
    ensures Inv(p, w.(process := Some(Executed(p, w.journal, q, b))))
  {
    StateNext(p, w.history, q.step);
    ExecutedInputs(p, w.history, w.journal, w.checkpoint.step, q, b);
    var r := Executed(p, w.journal, q, b);
    assert CircuitOk(p, w.history, r.step, r.circuit, r.processed);
  }

  lemma RestartKeeps(p: Pipeline, w: World)
    requires Inv(p, w) && w.process.None?
    ensures Inv(p, Step(p, w, Restart))
  {
    ReadNext(p, w.history, w.journal, w.checkpoint.step, w.checkpoint.step);
  }

  lemma WriteCheckpointKeeps(p: Pipeline, w: World, q: Process, c: Checkpoint)
    requires Inv(p, w) && w.process == Some(q) && q.running == Some(Running(c, false))
    ensures Inv(p, Written(w, q, c))
  {
    CoversFewer(p, w.history, w.journal, w.checkpoint.step, c.step);
  }

  lemma BeginCheckpointKeeps(p: Pipeline, w: World, q: Process)
    requires Inv(p, w) && w.process == Some(q) && q.ingested.None?
    ensures CheckpointOk(p, w.history, CheckpointOf(q))
  {
  }

  lemma StepKeepsInv(p: Pipeline, w: World, e: Event)
    requires Inv(p, w) && Enabled(p, w, e)
    ensures Inv(p, Step(p, w, e))
  {
    match w.process {
      case None => RestartKeeps(p, w);
      case Some(q) =>
        match e {
          case Ingest(b) => IngestKeeps(p, w, q, b);
          case ReplayStep => ReplayStepKeeps(p, w, q, q.replay.value);
          case Execute => ExecuteKeeps(p, w, q, q.ingested.value);
          case Send(_) =>
          case UpdateCompleted(_) =>
          case BeginCheckpoint => BeginCheckpointKeeps(p, w, q);
          case WriteCheckpoint => WriteCheckpointKeeps(p, w, q, q.running.value.checkpoint);
          case AbandonCheckpoint =>
          case FinishCheckpoint(deleted) => JournalTruncated(p, w.history, w.journal, w.checkpoint.step, deleted);
          case Stop(_, _) =>
          case Crash =>
        }
    }
  }

  /** Whatever the interleaving of steps, background checkpoints, crashes and reopenings, no replay
      fails and the journal covers every step from the durable checkpoint on. */
  lemma {:induction false} EveryRunRecoverable(p: Pipeline, w: World, es: seq<Event>)
    requires Inv(p, w) && IsRun(p, w, es)
    ensures Inv(p, Run(p, w, es))
    decreases |es|
  {
    if es != [] {
      StepKeepsInv(p, w, es[0]);
      EveryRunRecoverable(p, Step(p, w, es[0]), es[1..]);
    }
  }

  lemma CreatedInv(p: Pipeline)
    ensures Inv(p, Created(p))
  {
  }

  ghost predicate Reachable(p: Pipeline, w: World)
  {
    exists es: seq<Event> :: IsRun(p, Created(p), es) && Run(p, Created(p), es) == w
  }

  lemma ReachableInv(p: Pipeline, w: World)
    requires Reachable(p, w)
    ensures Inv(p, w)
  {
    var es: seq<Event> :| IsRun(p, Created(p), es) && Run(p, Created(p), es) == w;
    CreatedInv(p);
    EveryRunRecoverable(p, Created(p), es);
  }

  lemma {:induction false} RunSnoc(p: Pipeline, w: World, es: seq<Event>, e: Event)
    requires IsRun(p, w, es) && Enabled(p, Run(p, w, es), e)
    ensures IsRun(p, w, es + [e]) && Run(p, w, es + [e]) == Step(p, Run(p, w, es), e)
    decreases |es|
  {
    if es == [] {
      assert [e][1..] == [];
    } else {
      RunSnoc(p, Step(p, w, es[0]), es[1..], e);
      assert (es + [e])[1..] == es[1..] + [e];
    }
  }

  lemma ReachNext(p: Pipeline, w: World, e: Event)
    requires Reachable(p, w) && Enabled(p, w, e)
    ensures Reachable(p, Step(p, w, e))
  {
    var es: seq<Event> :| IsRun(p, Created(p), es) && Run(p, Created(p), es) == w;
    RunSnoc(p, Created(p), es, e);
  }

  // ---------------------------------------------------------------- exactly-once input

  function Replays(n: nat): seq<Event>
  {
    if n == 0 then [] else [ReplayStep, Execute] + Replays(n - 1)
  }

  ghost predicate Idle(q: Process)
  {
    q.ingested.None? && q.replay.None?
  }

  /** Two processes that stand at the same point of the same computation. */
  ghost predicate SamePoint(p: Pipeline, q: Process, r: Process)
  {
    && q.step == r.step && q.circuit == r.circuit && q.processed == r.processed
    && forall n | n in p.inputs ::
         && Start(q.readers.position, n) == Start(r.readers.position, n)
         && Start(q.readers.resume, n) == Start(r.readers.resume, n)
  }

  /** A process that stands at the end of the history, ready for new input. */
  ghost predicate AtEnd(p: Pipeline, h: seq<StepInput>, q: Process)
  {
    && Idle(q)
    && q.step == |h| && q.circuit == State(p, h) && q.processed == Count(h)
    && AtOffsets(p, h, q.readers.position) && AtOffsets(p, h, q.readers.resume)
  }

  lemma IdleAtEnd(p: Pipeline, w: World)
    requires Inv(p, w) && w.process.Some? && Idle(w.process.value)
    ensures AtEnd(p, w.history, w.process.value)
  {
    assert w.history[..|w.history|] == w.history;
  }

  lemma ReplayOnce(p: Pipeline, w: World)
    requires Inv(p, w) && w.process.Some? && w.process.value.ingested.None?
    requires w.process.value.step < |w.history|
    ensures Enabled(p, w, ReplayStep) && Enabled(p, Step(p, w, ReplayStep), Execute)
    ensures
      var v := Step(p, Step(p, w, ReplayStep), Execute);
      Inv(p, v) && v.history == w.history && v.process.Some? && v.process.value.ingested.None?
      && v.process.value.step == w.process.value.step + 1
  {
    var q := w.process.value;
    ReplayStepKeeps(p, w, q, q.replay.value);
    var w1 := Step(p, w, ReplayStep);
    ExecuteKeeps(p, w1, w1.process.value, w1.process.value.ingested.value);
  }

  /** A run that leads, without a failure, to a process at the end of `h`. */
  ghost predicate RunsToEnd(p: Pipeline, w: World, es: seq<Event>, h: seq<StepInput>)
    decreases |es|
  {
    if es == [] then !w.failed && w.process.Some? && AtEnd(p, h, w.process.value)
    else Enabled(p, w, es[0]) && RunsToEnd(p, Step(p, w, es[0]), es[1..], h)
  }

  lemma {:induction false} EndOfRun(p: Pipeline, w: World, es: seq<Event>, h: seq<StepInput>)
    requires RunsToEnd(p, w, es, h)
    ensures IsRun(p, w, es)
    ensures
      var v := Run(p, w, es);
      !v.failed && v.process.Some? && AtEnd(p, h, v.process.value)
    decreases |es|
  {
    if es != [] {
      EndOfRun(p, Step(p, w, es[0]), es[1..], h);
    }
  }

  lemma RunOne(p: Pipeline, w: World, e: Event, rest: seq<Event>, h: seq<StepInput>)
    requires Enabled(p, w, e) && RunsToEnd(p, Step(p, w, e), rest, h)
    ensures RunsToEnd(p, w, [e] + rest, h)
  {
    assert ([e] + rest)[1..] == rest;
  }

  lemma EndsHere(p: Pipeline, w: World)
    requires Inv(p, w) && w.process.Some? && Idle(w.process.value)
    ensures RunsToEnd(p, w, [], w.history)
  {
    IdleAtEnd(p, w);
  }

  /** Replaying the `n` steps that are left leads to the end. */
  lemma {:induction false} ReplayToEnd(p: Pipeline, w: World, n: nat)
    requires Inv(p, w) && w.process.Some? && w.process.value.ingested.None?
    requires n == |w.history| - w.process.value.step
    ensures RunsToEnd(p, w, Replays(n), w.history)
    decreases n
  {
    if n == 0 {
      EndsHere(p, w);
    } else {
      ReplayOnce(p, w);
      ReplayToEnd(p, Step(p, Step(p, w, ReplayStep), Execute), n - 1);
      RunPair(p, w, n, w.history);
    }
  }

  lemma RunPair(p: Pipeline, w: World, n: nat, h: seq<StepInput>)
    requires n > 0 && Enabled(p, w, ReplayStep) && Enabled(p, Step(p, w, ReplayStep), Execute)
    requires RunsToEnd(p, Step(p, Step(p, w, ReplayStep), Execute), Replays(n - 1), h)
    ensures RunsToEnd(p, w, Replays(n), h)
  {
    var u := Step(p, w, ReplayStep);
    RunOne(p, u, Execute, Replays(n - 1), h);
    RunOne(p, w, ReplayStep, [Execute] + Replays(n - 1), h);
    assert Replays(n) == [ReplayStep] + ([Execute] + Replays(n - 1));
  }

  /** What a reopened process starts from. */
  lemma Reopened(p: Pipeline, w: World) returns (v: World)
    requires Inv(p, w) && w.process.None?
    ensures Inv(p, v) && v.history == w.history && v.process.Some? && v.process.value.ingested.None?
    ensures v.process.value.step == w.checkpoint.step <= |w.history| && v == Step(p, w, Restart)
  {
    RestartKeeps(p, w);
    v := Step(p, w, Restart);
  }

  lemma RestartEnds(p: Pipeline, w: World, n: nat)
    requires Inv(p, w) && w.process.None? && n == |w.history| - w.checkpoint.step
    ensures RunsToEnd(p, w, [Restart] + Replays(n), w.history)
  {
    var v := Reopened(p, w);
    ReplayToEnd(p, v, n);
    RunOne(p, w, Restart, Replays(n), w.history);
  }

  /** After any crash, reopening and replaying rebuilds the state of every journaled step, even of a
      step that was journaled but that the crash kept from executing. */
  lemma RestartRebuilds(p: Pipeline, w: World)
    requires Reachable(p, w) && w.process.None?
    ensures w.checkpoint.step <= |w.history|
    ensures RunsToEnd(p, w, [Restart] + Replays(|w.history| - w.checkpoint.step), w.history)
  {
    ReachableInv(p, w);
    RestartEnds(p, w, |w.history| - w.checkpoint.step);
  }

  /** Exactly-once input. In any reachable state between steps, a crash, a reopening and a replay of
      the journal rebuild the step number, the circuit's state, the input offsets and the count of
      processed records. */
  lemma CrashLosesNothing(p: Pipeline, w: World)
    requires Reachable(p, w) && w.process.Some? && Idle(w.process.value)
    ensures w.checkpoint.step <= |w.history|
    ensures
      var es := [Crash, Restart] + Replays(|w.history| - w.checkpoint.step);
      IsRun(p, w, es) && !Run(p, w, es).failed
      && Run(p, w, es).process.Some? && Idle(Run(p, w, es).process.value)
      && SamePoint(p, Run(p, w, es).process.value, w.process.value)
  {
    ReachableInv(p, w);
    CrashEnds(p, w, |w.history| - w.checkpoint.step);
  }

  lemma CrashEnds(p: Pipeline, w: World, n: nat)
    requires Inv(p, w) && w.process.Some? && Idle(w.process.value) && n == |w.history| - w.checkpoint.step
    ensures
      var es := [Crash, Restart] + Replays(n);
      IsRun(p, w, es) && !Run(p, w, es).failed
      && Run(p, w, es).process.Some? && Idle(Run(p, w, es).process.value)
      && SamePoint(p, Run(p, w, es).process.value, w.process.value)
  {
    IdleAtEnd(p, w);
    var v := Step(p, w, Crash);
    StepKeepsInv(p, w, Crash);
    RestartEnds(p, v, n);
    RunOne(p, w, Crash, [Restart] + Replays(n), w.history);
    assert [Crash, Restart] + Replays(n) == [Crash] + ([Restart] + Replays(n));
    EndOfRun(p, w, [Crash, Restart] + Replays(n), w.history);
  }

  /** Records of input `n` consumed by the steps of `h`. */
  function Consumed(h: seq<StepInput>, n: Name): seq<Record>
  {
    if h == [] then [] else Consumed(h[..|h| - 1], n) + RecordsOf(h[|h| - 1], n)
  }

  lemma SliceAppend(p: Pipeline, n: Name, a: nat, b: nat)
    ensures Slice(p, n, 0, a) + Slice(p, n, a, b) == Slice(p, n, 0, a + b)
  {
  }

  /** An input that rereads its source feeds each of its records to the computation exactly once, in
      order, however often the pipeline crashed. */
  lemma {:induction false} InputConsumedOnce(p: Pipeline, h: seq<StepInput>, n: Name)
    requires HistoryOk(p, h) && n in p.inputs && p.kind(n).Rereads?
    ensures Consumed(h, n) == Slice(p, n, 0, Offset(p, h, n))
  {
    if h != [] {
      var g := h[..|h| - 1];
      HistoryPrefix(p, h, |h| - 1);
      InputConsumedOnce(p, g, n);
      var b, from := h[|h| - 1], Offset(p, g, n);
      SliceAppend(p, n, from, |b[n]|);
      assert b[n] == Slice(p, n, from, |b[n]|);
    }
  }

  /** In every reachable state, what the pipeline has consumed from a rereading input is the beginning
      of its source, each record once, up to the position that recovery restores. */
  lemma SourceReadOnce(p: Pipeline, w: World, n: Name)
    requires Reachable(p, w) && n in p.inputs && p.kind(n).Rereads?
    ensures Consumed(w.history, n) == Slice(p, n, 0, Offset(p, w.history, n))
    ensures |Consumed(w.history, n)| == Offset(p, w.history, n)
    ensures forall i | 0 <= i < |Consumed(w.history, n)| :: Consumed(w.history, n)[i] == p.source(n, i)
  {
    ReachableInv(p, w);
    InputConsumedOnce(p, w.history, n);
  }

  /** Everything that each input has delivered. */
  function AllConsumed(p: Pipeline, h: seq<StepInput>): StepInput
  {
    map n | n in p.inputs :: Consumed(h, n)
  }

  /** The record count is the number of records consumed, summed over the inputs. */
  lemma {:induction false} CountIsConsumed(p: Pipeline, h: seq<StepInput>)
    requires HistoryOk(p, h)
    ensures Count(h) == Total(AllConsumed(p, h))
  {
    if h == [] {
      TotalZero(AllConsumed(p, h));
    } else {
      var g, b := h[..|h| - 1], h[|h| - 1];
      HistoryPrefix(p, h, |h| - 1);
      CountIsConsumed(p, g);
      assert Legal(p, h, |h| - 1);
      TotalJoined(AllConsumed(p, g), b);
      assert AllConsumed(p, h) == Joined(AllConsumed(p, g), b);
    }
  }

  /** In every reachable state the count that a running process, its checkpoints and its labels carry is
      the number of records in the steps that it has executed, summed over the inputs. */
  lemma ProcessedIsConsumed(p: Pipeline, w: World)
    requires Reachable(p, w) && w.process.Some?
    ensures
      var q := w.process.value;
      q.step <= |w.history| && q.processed == Total(AllConsumed(p, w.history[..q.step]))
  {
    ReachableInv(p, w);
    var q := w.process.value;
    if q.step < |w.history| {
      HistoryPrefix(p, w.history, q.step);
    } else {
      assert w.history[..q.step] == w.history;
    }
    CountIsConsumed(p, w.history[..q.step]);
  }

  /** Replay never accepts different input unnoticed: whatever the sources hold by then and wherever the
      readers stand, a replay of the record of a step that delivered `b` is accepted only for the same step
      and the same inputs, and only if every input flushes as many records with the same hash. */
  lemma ReplayDetects(p: Pipeline, now: Pipeline, step: nat, position: map<Name, nat>, b: StepInput,
                      nextStep: nat, readers: map<Name, nat>)
    requires now.inputs == p.inputs && now.kind == p.kind && now.hash == p.hash
    ensures
      var r := ReplayInput(now, nextStep, readers, RecordOf(p, step, position, b));
      r.Some? ==>
        && nextStep == step && r.value.Keys == p.inputs
        && forall n | n in p.inputs ::
             && |r.value[n]| == |RecordsOf(b, n)|
             && p.hash(r.value[n]) == p.hash(RecordsOf(b, n))
             && (p.kind(n).Logs? ==> r.value[n] == RecordsOf(b, n))
  {
  }

  // ---------------------------------------------------------------- a whole checkpoint

  lemma RunCons(p: Pipeline, w: World, e: Event, es: seq<Event>)
    requires Enabled(p, w, e) && IsRun(p, Step(p, w, e), es)
    ensures IsRun(p, w, [e] + es) && Run(p, w, [e] + es) == Run(p, Step(p, w, e), es)
  {
    assert ([e] + es)[1..] == es;
  }

  function WholeCheckpoint(processed: nat, deleted: set<nat>): seq<Event>
  {
    [UpdateCompleted(processed)] + ([BeginCheckpoint] + ([WriteCheckpoint] + [FinishCheckpoint(deleted)]))
  }

  /** The world once a checkpoint of `q` has been taken. */
  ghost function Trimmed(w: World, q: Process): World
  {
    w.(checkpoint := CheckpointOf(q), journal := map[],
       process := Some(q.(completed := Max(q.completed, q.processed))))
  }

  /** Once every output has reported all input as processed, a process that is ready for new input can
      take a checkpoint. It covers the whole history and leaves the journal empty. */
  lemma CheckpointCompletes(p: Pipeline, w: World, q: Process)
    requires Inv(p, w) && w.process == Some(q) && Idle(q) && q.running.None?
    requires forall n | n in q.out.reported :: q.processed <= q.out.reported[n]
    ensures
      var es := WholeCheckpoint(q.processed, w.journal.Keys);
      IsRun(p, w, es) && Run(p, w, es) == Trimmed(w, q)
    ensures Inv(p, Trimmed(w, q)) && Trimmed(w, q).checkpoint.step == |w.history|
  {
    IdleAtEnd(p, w);
    var w1 := Step(p, w, UpdateCompleted(q.processed));
    var w2 := Step(p, w1, BeginCheckpoint);
    var w3 := Step(p, w2, WriteCheckpoint);
    var last := FinishCheckpoint(w.journal.Keys);
    var w4 := Step(p, w3, last);
    assert w.journal - w.journal.Keys == map[];
    assert w4 == Trimmed(w, q);
    RunCons(p, w3, last, []);
    RunCons(p, w2, WriteCheckpoint, [last]);
    RunCons(p, w1, BeginCheckpoint, [WriteCheckpoint] + [last]);
    RunCons(p, w, UpdateCompleted(q.processed), [BeginCheckpoint] + ([WriteCheckpoint] + [last]));
    EveryRunRecoverable(p, w, WholeCheckpoint(q.processed, w.journal.Keys));
  }

  /** A process reopened from such a checkpoint has nothing to replay, stands where the old one did and,
      with its outputs empty and up to date, can take a checkpoint at once. */
  lemma ReopenedAfterCheckpoint(p: Pipeline, w: World, q: Process)
    requires Inv(p, w) && w.process == Some(q) && Idle(q) && w.journal == map[] && w.checkpoint == CheckpointOf(q)
    ensures
      var v := Step(p, Step(p, w, Crash), Restart);
      && v == w.(process := v.process)
      && v.process.Some? && Idle(v.process.value) && SamePoint(p, v.process.value, q)
      && v.process.value.running.None? && v.process.value.completed == q.processed
      && forall e | e in p.outputs ::
           && e in v.process.value.out.queues && v.process.value.out.queues[e] == []
           && e in v.process.value.out.reported && v.process.value.out.reported[e] == q.processed
  {
    IdleAtEnd(p, w);
  }

  // ---------------------------------------------------------------- a checkpoint after termination

  /** The circuit thread looks for checkpoint requests before it looks whether the pipeline is terminated,
      so a checkpoint may yet include the step `b` that was not journaled. Its offsets are those of the
      inputs in `kept`, which had not been disconnected when the step ended. */
  ghost function LateCheckpoint(p: Pipeline, w: World, q: Process, b: StepInput, kept: set<Name>): World
  {
    var position := Advanced(p, q.readers.position, b);
    w.(history := w.history + [b], process := None,
       checkpoint := Checkpoint(q.step + 1, p.next(q.circuit, b), map n | n in position && n in kept :: position[n],
                                q.processed + Total(b)))
  }

  /** Such a checkpoint leaves a state from which everything can be recovered if and only if it has the
      offset of every input that has one. */
  lemma LateCheckpointSafeIff(p: Pipeline, w: World, q: Process, b: StepInput, kept: set<Name>)
    requires Inv(p, w) && w.process == Some(q) && Idle(q) && Deliverable(p, q.readers.position, b)
    ensures Inv(p, LateCheckpoint(p, w, q, b, kept))
            <==> forall n | n in p.inputs :: n in kept || Offset(p, w.history + [b], n) == 0
  {
    var h, v := w.history, LateCheckpoint(p, w, q, b, kept);
    var g := h + [b];
    IdleAtEnd(p, w);
    assert g[..|h|] == h && g[..|g|] == g;
    HistoryExtended(p, h, b);
    StateNext(p, g, |h|);
    LateCovers(p, h, b, w.journal, w.checkpoint.step);
    OffsetsAdvance(p, g, |h|, q.readers.position);
    LateOffsets(p, g, Advanced(p, q.readers.position, b), kept);
  }

  lemma LateCovers(p: Pipeline, h: seq<StepInput>, b: StepInput, journal: map<nat, StepRecord>, from: nat)
    requires Covers(p, h, journal, from)
    ensures Covers(p, h + [b], journal, |h| + 1)
  {
  }

  lemma LateOffsets(p: Pipeline, g: seq<StepInput>, position: map<Name, nat>, kept: set<Name>)
    requires AtOffsets(p, g, position) && position.Keys == p.inputs
    ensures AtOffsets(p, g, map n | n in position && n in kept :: position[n])
            <==> forall n | n in p.inputs :: n in kept || Offset(p, g, n) == 0
  {
    var m := map n | n in position && n in kept :: position[n];
    forall n | n in p.inputs ensures Start(m, n) == Offset(p, g, n) <==> n in kept || Offset(p, g, n) == 0 {
      assert Start(position, n) == position[n];
    }
  }
}
