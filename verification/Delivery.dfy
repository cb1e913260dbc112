/** Exactly-once output: what an unbuffered endpoint that discards repeated steps makes visible over
    any run of the fault tolerance machine. */
module Delivery {
  import opened Common
  import opened Recovery

  /** What step number `s` outputs to endpoint `e`. Steps are numbered from 1 on the output side. */
  function OutputOf(p: Pipeline, h: seq<StepInput>, e: Name, s: nat): Output
    requires 1 <= s <= |h|
  {
    p.output(State(p, h[..s - 1]), h[s - 1], e)
  }

  /** A step that consumes no records outputs nothing, whatever the pipeline has consumed before. */
  ghost predicate QuietWhenIdle(p: Pipeline)
  {
    forall h, b, e | HistoryOk(p, h) && InputOk(p, h, b) && Total(b) == 0 && e in p.outputs ::
      p.output(State(p, h), b, e) == p.empty
  }

  // ---------------------------------------------------------------- the invariant

  ghost predicate Rightful(p: Pipeline, h: seq<StepInput>, e: Name, x: (nat, Output))
  {
    1 <= x.0 <= |h| && x.1 == OutputOf(p, h, e, x.0)
  }

  ghost predicate Increasing(v: seq<(nat, Output)>)
  {
    forall i, j | 0 <= i < j < |v| :: v[i].0 < v[j].0
  }

  function Last(v: seq<(nat, Output)>): nat
  {
    if v == [] then 0 else v[|v| - 1].0
  }

  /** Visible batches are genuine, in order and without repetition. */
  ghost predicate Genuine(p: Pipeline, h: seq<StepInput>, e: Name, v: seq<(nat, Output)>)
  {
    (forall i | 0 <= i < |v| :: Rightful(p, h, e, v[i])) && Increasing(v)
  }

  ghost predicate Settled(p: Pipeline, h: seq<StepInput>, e: Name, v: seq<(nat, Output)>, s: nat)
    requires 1 <= s <= |h|
  {
    Has(v, s) || OutputOf(p, h, e, s) == p.empty
  }

  /** Everything up to the durable checkpoint is visible, unless it is empty. */
  ghost predicate AllSettled(p: Pipeline, h: seq<StepInput>, e: Name, v: seq<(nat, Output)>, upto: nat)
    requires upto <= |h|
  {
    forall s | 1 <= s <= upto :: Settled(p, h, e, v, s)
  }

  /** Gaps below the last visible step lie at or below `bound`. */
  ghost predicate NoGaps(v: seq<(nat, Output)>, bound: nat)
  {
    forall s | bound < s <= Last(v) :: Has(v, s)
  }

  ghost predicate ItemOk(p: Pipeline, h: seq<StepInput>, e: Name, i: Item, s: nat)
  {
    && 1 <= s <= |h|
    && i == Item(s, OutputOf(p, h, e, s), Count(h[..s]))
  }

  ghost predicate QueueOk(p: Pipeline, h: seq<StepInput>, e: Name, q: seq<Item>, sent: nat)
  {
    forall i | 0 <= i < |q| :: ItemOk(p, h, e, q[i], sent + 1 + i)
  }

  ghost predicate SentShown(v: seq<(nat, Output)>, base: nat, sent: nat)
  {
    forall s | base < s <= sent :: Has(v, s)
  }

  /** While a process runs, everything that it has executed since it was opened is visible or queued. */
  ghost predicate Flowing(p: Pipeline, h: seq<StepInput>, e: Name, v: seq<(nat, Output)>,
                          base: nat, step: nat, queue: seq<Item>, reported: nat, completed: nat)
  {
    && base + |queue| <= step <= |h|
    && var sent := step - |queue|;
    && QueueOk(p, h, e, queue, sent)
    && SentShown(v, base, sent)
    && NoGaps(v, base)
    && completed <= reported == Count(h[..sent])
  }

  ghost predicate Shown(p: Pipeline, h: seq<StepInput>, e: Name, v: seq<(nat, Output)>, checkpointed: nat)
  {
    && checkpointed <= |h|
    && Genuine(p, h, e, v)
    && AllSettled(p, h, e, v, checkpointed)
    && NoGaps(v, checkpointed)
  }

  ghost predicate EndpointOk(p: Pipeline, w: World, q: Process, e: Name)
  {
    && e in q.out.queues && e in q.out.reported && e in w.visible
    && Flowing(p, w.history, e, w.visible[e], q.base, q.step, q.out.queues[e], q.out.reported[e], q.completed)
  }

  ghost predicate Delivers(p: Pipeline, w: World, e: Name)
  {
    && e in w.visible && Shown(p, w.history, e, w.visible[e], w.checkpoint.step)
    && (w.process.Some? ==> EndpointOk(p, w, w.process.value, e))
  }

  ghost predicate DeliveryInv(p: Pipeline, w: World, e: Name)
  {
    Inv(p, w) && Delivers(p, w, e)
  }

  // ---------------------------------------------------------------- longer histories

  lemma OutputKept(p: Pipeline, h: seq<StepInput>, b: StepInput, e: Name, s: nat)
    requires 1 <= s <= |h|
    ensures OutputOf(p, h + [b], e, s) == OutputOf(p, h, e, s)
    ensures (h + [b])[..s] == h[..s]
  {
    Prefix(h, b, s - 1);
  }

  lemma GenuineKept(p: Pipeline, h: seq<StepInput>, b: StepInput, e: Name, v: seq<(nat, Output)>)
    requires Genuine(p, h, e, v)
    ensures Genuine(p, h + [b], e, v)
  {
    forall i | 0 <= i < |v| ensures Rightful(p, h + [b], e, v[i]) {
      assert Rightful(p, h, e, v[i]);
      OutputKept(p, h, b, e, v[i].0);
    }
  }

  lemma SettledKept(p: Pipeline, h: seq<StepInput>, b: StepInput, e: Name, v: seq<(nat, Output)>, upto: nat)
    requires upto <= |h| && AllSettled(p, h, e, v, upto)
    ensures AllSettled(p, h + [b], e, v, upto)
  {
    forall s | 1 <= s <= upto ensures Settled(p, h + [b], e, v, s) {
      assert Settled(p, h, e, v, s);
      OutputKept(p, h, b, e, s);
    }
  }

  lemma QueueKept(p: Pipeline, h: seq<StepInput>, b: StepInput, e: Name, q: seq<Item>, sent: nat)
    requires QueueOk(p, h, e, q, sent)
    ensures QueueOk(p, h + [b], e, q, sent)
  {
    forall i | 0 <= i < |q| ensures ItemOk(p, h + [b], e, q[i], sent + 1 + i) {
      assert ItemOk(p, h, e, q[i], sent + 1 + i);
      OutputKept(p, h, b, e, sent + 1 + i);
    }
  }

  lemma {:induction false} CountMonotone(h: seq<StepInput>, i: nat, j: nat)
    requires i <= j <= |h|
    ensures Count(h[..i]) <= Count(h[..j])
    decreases j
  {
    if i < j {
      CountMonotone(h, i, j - 1);
      assert h[..j][..j - 1] == h[..j - 1];
    }
  }

  // ---------------------------------------------------------------- showing one batch

  lemma ShowHas(v: seq<(nat, Output)>, i: Item, s: nat)
    ensures Has(Show(v, i), s) <==> Has(v, s) || s == i.step
  {
    var u := Show(v, i);
    if !Has(v, i.step) {
      assert u[|v|].0 == i.step;
      if Has(v, s) {
        var k :| 0 <= k < |v| && v[k].0 == s;
        assert u[k].0 == s;
      }
      if Has(u, s) && s != i.step {
        var k :| 0 <= k < |u| && u[k].0 == s;
        assert v[k].0 == s;
      }
    }
  }

  /** A batch that was not visible comes after everything that was. */
  lemma NewIsLast(v: seq<(nat, Output)>, bound: nat, s: nat)
    requires NoGaps(v, bound) && bound < s && !Has(v, s)
    ensures Last(v) < s
  {
  }

  lemma ShowKeepsGenuine(p: Pipeline, h: seq<StepInput>, e: Name, v: seq<(nat, Output)>, i: Item, bound: nat)
    requires Genuine(p, h, e, v) && NoGaps(v, bound) && bound < i.step && ItemOk(p, h, e, i, i.step)
    ensures Genuine(p, h, e, Show(v, i))
  {
    var u := Show(v, i);
    if !Has(v, i.step) {
      NewIsLast(v, bound, i.step);
      assert Rightful(p, h, e, u[|v|]);
      assert forall k | 0 <= k < |v| :: v[k].0 <= Last(v);
    }
  }

  lemma ShowKeepsNoGaps(v: seq<(nat, Output)>, i: Item, bound: nat)
    requires NoGaps(v, bound) && i.step > 0 && SentShown(v, bound, i.step - 1)
    ensures NoGaps(Show(v, i), bound)
  {
    forall s | bound < s <= Last(Show(v, i)) ensures Has(Show(v, i), s) {
      ShowHas(v, i, s);
    }
  }

  // ---------------------------------------------------------------- every step keeps the invariant

  lemma IngestDelivery(p: Pipeline, w: World, q: Process, b: StepInput, e: Name)
    requires Delivers(p, w, e) && w.process == Some(q)
    ensures Delivers(p, Ingested(p, w, q, b), e)
  {
    var h, v := w.history, w.visible[e];
    GenuineKept(p, h, b, e, v);
    SettledKept(p, h, b, e, v, w.checkpoint.step);
    var sent := q.step - |q.out.queues[e]|;
    QueueKept(p, h, b, e, q.out.queues[e], sent);
    Prefix(h, b, sent);
  }

  lemma QueuePushed(p: Pipeline, h: seq<StepInput>, e: Name, q: seq<Item>, sent: nat, i: Item)
    requires QueueOk(p, h, e, q, sent) && ItemOk(p, h, e, i, sent + |q| + 1)
    ensures QueueOk(p, h, e, q + [i], sent)
  {
  }

  lemma ExecuteDelivery(p: Pipeline, w: World, q: Process, b: StepInput, e: Name)
    requires CircuitOk(p, w.history, q.step, q.circuit, q.processed) && q.step < |w.history| && b == w.history[q.step]
    requires Delivers(p, w, e) && w.process == Some(q)
    ensures Delivers(p, w.(process := Some(Executed(p, w.journal, q, b))), e)
  {
    ItemExecuted(p, w.history, e, q.step, q.circuit, q.processed);
    QueueExecuted(p, w.journal, q, b, e);
    var i := Item(q.step + 1, p.output(q.circuit, b, e), q.processed + Total(b));
    ExecutedDelivers(p, w, q, Executed(p, w.journal, q, b), i, e);
  }

  lemma ExecutedDelivers(p: Pipeline, w: World, q: Process, r: Process, i: Item, e: Name)
    requires Delivers(p, w, e) && w.process == Some(q) && ItemOk(p, w.history, e, i, q.step + 1)
    requires r.base == q.base && r.step == q.step + 1 && r.out.reported == q.out.reported && r.completed == q.completed
    requires e in r.out.queues && r.out.queues[e] == q.out.queues[e] + [i]
    ensures Delivers(p, w.(process := Some(r)), e)
  {
    FlowPushed(p, w.history, e, w.visible[e], q.base, q.step, q.out.queues[e], q.out.reported[e], q.completed, i);
  }

  lemma QueueExecuted(p: Pipeline, journal: map<nat, StepRecord>, q: Process, b: StepInput, e: Name)
    requires e in q.out.queues
    ensures
      var r := Executed(p, journal, q, b);
      && r.base == q.base && r.step == q.step + 1 && r.out.reported == q.out.reported && r.completed == q.completed
      && e in r.out.queues
      && r.out.queues[e] == q.out.queues[e] + [Item(q.step + 1, p.output(q.circuit, b, e), q.processed + Total(b))]
  {
  }

  lemma ItemExecuted(p: Pipeline, h: seq<StepInput>, e: Name, step: nat, circuit: CircuitState, processed: nat)
    requires CircuitOk(p, h, step, circuit, processed) && step < |h|
    ensures ItemOk(p, h, e, Item(step + 1, p.output(circuit, h[step], e), processed + Total(h[step])), step + 1)
  {
    StateNext(p, h, step);
  }

  lemma FlowPushed(p: Pipeline, h: seq<StepInput>, e: Name, v: seq<(nat, Output)>,
                   base: nat, step: nat, queue: seq<Item>, reported: nat, completed: nat, i: Item)
    requires Flowing(p, h, e, v, base, step, queue, reported, completed) && ItemOk(p, h, e, i, step + 1)
    ensures Flowing(p, h, e, v, base, step + 1, queue + [i], reported, completed)
  {
    QueuePushed(p, h, e, queue, step - |queue|, i);
  }

  lemma QueuePopped(p: Pipeline, h: seq<StepInput>, e: Name, q: seq<Item>, sent: nat)
    requires QueueOk(p, h, e, q, sent) && q != []
    ensures ItemOk(p, h, e, q[0], sent + 1) && QueueOk(p, h, e, q[1..], sent + 1)
  {
    forall i | 0 <= i < |q[1..]| ensures ItemOk(p, h, e, q[1..][i], sent + 1 + 1 + i) {
      assert ItemOk(p, h, e, q[i + 1], sent + 1 + (i + 1));
    }
  }

  lemma SettledShown(p: Pipeline, h: seq<StepInput>, e: Name, v: seq<(nat, Output)>, upto: nat, i: Item)
    requires upto <= |h| && AllSettled(p, h, e, v, upto)
    ensures AllSettled(p, h, e, Show(v, i), upto)
  {
    forall s | 1 <= s <= upto ensures Settled(p, h, e, Show(v, i), s) {
      assert Settled(p, h, e, v, s);
      ShowHas(v, i, s);
    }
  }

  lemma ShownNext(v: seq<(nat, Output)>, i: Item, base: nat)
    requires NoGaps(v, base) && base < i.step && SentShown(v, base, i.step - 1)
    ensures NoGaps(Show(v, i), base) && SentShown(Show(v, i), base, i.step)
  {
    ShowKeepsNoGaps(v, i, base);
    forall s | base < s <= i.step ensures Has(Show(v, i), s) {
      ShowHas(v, i, s);
    }
  }

  /** Sending the next item of the queue. */
  lemma SendNext(p: Pipeline, h: seq<StepInput>, e: Name, v: seq<(nat, Output)>,
                 base: nat, step: nat, queue: seq<Item>, reported: nat, completed: nat, checkpointed: nat)
    requires queue != [] && base <= checkpointed
    requires Flowing(p, h, e, v, base, step, queue, reported, completed) && Shown(p, h, e, v, checkpointed)
    ensures Flowing(p, h, e, Show(v, queue[0]), base, step, queue[1..], queue[0].processed, completed)
    ensures Shown(p, h, e, Show(v, queue[0]), checkpointed)
  {
    var i, sent := queue[0], step - |queue|;
    QueuePopped(p, h, e, queue, sent);
    ShowKeepsGenuine(p, h, e, v, i, base);
    ShownNext(v, i, base);
    SettledShown(p, h, e, v, checkpointed, i);
    CountMonotone(h, sent, sent + 1);
  }

  lemma SendDelivery(p: Pipeline, w: World, q: Process, n: Name, e: Name)
    requires Delivers(p, w, e) && w.process == Some(q) && q.base <= w.checkpoint.step
    requires EnabledIn(p, w, q, Send(n))
    ensures Delivers(p, Sent(w, q, n), e)
  {
    if n == e {
      SendNext(p, w.history, e, w.visible[e], q.base, q.step, q.out.queues[e], q.out.reported[e], q.completed,
               w.checkpoint.step);
    }
  }

  lemma IdleStepIsEmpty(p: Pipeline, h: seq<StepInput>, e: Name, s: nat)
    requires QuietWhenIdle(p) && e in p.outputs && HistoryOk(p, h)
    requires 1 <= s <= |h| && Total(h[s - 1]) == 0
    ensures OutputOf(p, h, e, s) == p.empty
  {
    HistoryPrefix(p, h, s - 1);
  }

  lemma Uncounted(h: seq<StepInput>, sent: nat, s: nat, upto: nat)
    requires sent < s <= upto <= |h| && Count(h[..sent]) >= Count(h[..upto])
    ensures Total(h[s - 1]) == 0
  {
    CountMonotone(h, sent, s - 1);
    CountMonotone(h, s, upto);
    assert h[..s][..s - 1] == h[..s - 1];
  }

  /** Completion up to the checkpoint's record count settles every step before the checkpoint. */
  lemma CompletionSettles(p: Pipeline, h: seq<StepInput>, e: Name, v: seq<(nat, Output)>,
                          base: nat, step: nat, queue: seq<Item>, reported: nat, completed: nat,
                          checkpointed: nat, upto: nat)
    requires QuietWhenIdle(p) && e in p.outputs && HistoryOk(p, h) && base <= checkpointed
    requires Flowing(p, h, e, v, base, step, queue, reported, completed) && Shown(p, h, e, v, checkpointed)
    requires checkpointed <= upto <= step && completed >= Count(h[..upto])
    ensures Shown(p, h, e, v, upto)
  {
    var sent := step - |queue|;
    forall s | 1 <= s <= upto ensures Settled(p, h, e, v, s) {
      if s <= base {
        assert Settled(p, h, e, v, s);
      } else if s > sent {
        Uncounted(h, sent, s, upto);
        IdleStepIsEmpty(p, h, e, s);
      }
    }
  }

  lemma WriteDelivery(p: Pipeline, w: World, q: Process, c: Checkpoint, e: Name)
    requires QuietWhenIdle(p) && e in p.outputs && HistoryOk(p, w.history)
    requires Delivers(p, w, e) && w.process == Some(q) && q.base <= w.checkpoint.step <= c.step <= q.step
    requires CheckpointOk(p, w.history, c) && q.completed >= c.processed
    ensures Delivers(p, Written(w, q, c), e)
  {
    CompletionSettles(p, w.history, e, w.visible[e], q.base, q.step, q.out.queues[e], q.out.reported[e], q.completed,
                      w.checkpoint.step, c.step);
  }

  lemma RestartDelivery(p: Pipeline, w: World, e: Name)
    requires e in p.outputs && DeliveryInv(p, w, e) && w.process.None?
    ensures Delivers(p, Step(p, w, Restart), e)
  {
  }

  lemma StopDelivery(p: Pipeline, w: World, q: Process, b: StepInput, e: Name)
    requires Delivers(p, w, e) && w.process == Some(q)
    ensures Delivers(p, Stopped(p, w, q, b, {}), e)
  {
  }

  lemma OtherDelivery(p: Pipeline, w: World, q: Process, ev: Event, e: Name)
    requires Delivers(p, w, e) && w.process == Some(q) && EnabledIn(p, w, q, ev)
    requires !ev.Ingest? && !ev.Execute? && !ev.Send? && !ev.WriteCheckpoint? && !ev.Stop?
    ensures Delivers(p, StepIn(p, w, q, ev), e)
  {
    var v := StepIn(p, w, q, ev);
    assert v.visible == w.visible && v.history == w.history && v.checkpoint == w.checkpoint;
    if v.process.Some? {
      var r := v.process.value;
      assert r.base == q.base && r.step == q.step && r.out.queues == q.out.queues && r.out.reported == q.out.reported;
      assert r.completed <= r.out.reported[e];
    }
  }

  lemma RunningDelivery(p: Pipeline, w: World, q: Process, ev: Event, e: Name)
    requires QuietWhenIdle(p) && e in p.outputs && HistoryOk(p, w.history) && ProcessOk(p, w.history, w.checkpoint, q)
    requires Delivers(p, w, e) && w.process == Some(q) && EnabledIn(p, w, q, ev) && SilentEvent(ev)
    ensures Delivers(p, StepIn(p, w, q, ev), e)
  {
    match ev {
      case Ingest(b) => IngestDelivery(p, w, q, b, e);
      case Execute => ExecuteDelivery(p, w, q, q.ingested.value, e);
      case Send(n) => SendDelivery(p, w, q, n, e);
      case WriteCheckpoint => WriteDelivery(p, w, q, q.running.value.checkpoint, e);
      case Stop(b, _) => StopDelivery(p, w, q, b, e);
      case _ => OtherDelivery(p, w, q, ev, e);
    }
  }

  lemma StepKeepsDelivery(p: Pipeline, w: World, ev: Event, e: Name)
    requires QuietWhenIdle(p) && e in p.outputs && DeliveryInv(p, w, e) && Enabled(p, w, ev) && SilentEvent(ev)
    ensures DeliveryInv(p, Step(p, w, ev), e)
  {
    StepKeepsInv(p, w, ev);
    match w.process {
      case None => RestartDelivery(p, w, e);
      case Some(q) => RunningDelivery(p, w, q, ev, e);
    }
  }

  /** An orderly end sends nothing of a step that it does not journal. */
  predicate SilentEvent(ev: Event)
  {
    ev.Stop? ==> ev.sent == {}
  }

  ghost predicate SilentRun(p: Pipeline, w: World, es: seq<Event>)
  {
    IsRun(p, w, es) && forall k | 0 <= k < |es| :: SilentEvent(es[k])
  }

  ghost predicate Silently(p: Pipeline, w: World)
  {
    exists es: seq<Event> :: SilentRun(p, Created(p), es) && Run(p, Created(p), es) == w
  }

  lemma SilentInv(p: Pipeline, w: World)
    requires Silently(p, w)
    ensures Inv(p, w) && Reachable(p, w)
  {
    var es: seq<Event> :| SilentRun(p, Created(p), es) && Run(p, Created(p), es) == w;
    ReachableInv(p, w);
  }

  lemma SilentNext(p: Pipeline, w: World, e: Event)
    requires Silently(p, w) && Enabled(p, w, e) && SilentEvent(e)
    ensures Silently(p, Step(p, w, e))
  {
    var es: seq<Event> :| SilentRun(p, Created(p), es) && Run(p, Created(p), es) == w;
    RunSnoc(p, Created(p), es, e);
    assert SilentRun(p, Created(p), es + [e]);
  }

  lemma {:induction false} EveryRunDelivers(p: Pipeline, w: World, es: seq<Event>, e: Name)
    requires QuietWhenIdle(p) && e in p.outputs && DeliveryInv(p, w, e) && SilentRun(p, w, es)
    ensures DeliveryInv(p, Run(p, w, es), e)
    decreases |es|
  {
    if es != [] {
      StepKeepsDelivery(p, w, es[0], e);
      EveryRunDelivers(p, Step(p, w, es[0]), es[1..], e);
    }
  }

  lemma ReachableDelivery(p: Pipeline, w: World, e: Name)
    requires QuietWhenIdle(p) && e in p.outputs && Silently(p, w)
    ensures DeliveryInv(p, w, e)
  {
    var es: seq<Event> :| SilentRun(p, Created(p), es) && Run(p, Created(p), es) == w;
    CreatedInv(p);
    EveryRunDelivers(p, Created(p), es, e);
  }

  // ---------------------------------------------------------------- exactly-once output

  /** The batches, in order, that are not empty. */
  function NonEmpty(p: Pipeline, v: seq<(nat, Output)>): seq<(nat, Output)>
  {
    if v == [] then []
    else NonEmpty(p, v[..|v| - 1]) + if v[|v| - 1].1 == p.empty then [] else [v[|v| - 1]]
  }

  /** Numbered outputs of the first `m` steps, as one uninterrupted execution would produce them. */
  function Outputs(p: Pipeline, h: seq<StepInput>, e: Name, m: nat): seq<(nat, Output)>
    requires m <= |h|
  {
    if m == 0 then [] else Outputs(p, h, e, m - 1) + [(m, OutputOf(p, h, e, m))]
  }

  lemma NothingBeforeFirst(p: Pipeline, h: seq<StepInput>, e: Name, v: seq<(nat, Output)>)
    requires Genuine(p, h, e, v)
    ensures Last(v) == 0 <==> v == []
  {
    assert v != [] ==> Rightful(p, h, e, v[|v| - 1]);
  }

  /** An ordered collection of genuine batches that lacks only empty ones is the real output. */
  lemma {:induction false} GenuineAndSettled(p: Pipeline, h: seq<StepInput>, e: Name, v: seq<(nat, Output)>, m: nat)
    requires m <= |h| && Genuine(p, h, e, v) && Last(v) <= m && AllSettled(p, h, e, v, m)
    ensures NonEmpty(p, v) == NonEmpty(p, Outputs(p, h, e, m))
    decreases m
  {
    if m == 0 {
      NothingBeforeFirst(p, h, e, v);
    } else if Last(v) == m {
      WithoutLast(p, h, e, v, m);
      GenuineAndSettled(p, h, e, v[..|v| - 1], m - 1);
      OutputsSnoc(p, h, e, m);
    } else {
      LastMissing(p, h, e, v, m);
      GenuineAndSettled(p, h, e, v, m - 1);
      OutputsSnoc(p, h, e, m);
    }
  }

  lemma OutputsSnoc(p: Pipeline, h: seq<StepInput>, e: Name, m: nat)
    requires 0 < m <= |h|
    ensures
      var x := (m, OutputOf(p, h, e, m));
      NonEmpty(p, Outputs(p, h, e, m))
      == NonEmpty(p, Outputs(p, h, e, m - 1)) + if x.1 == p.empty then [] else [x]
  {
    var all := Outputs(p, h, e, m);
    assert all[..|all| - 1] == Outputs(p, h, e, m - 1);
  }

  /** A settled step beyond the last visible one is empty. */
  lemma LastMissing(p: Pipeline, h: seq<StepInput>, e: Name, v: seq<(nat, Output)>, m: nat)
    requires 0 < m <= |h| && Genuine(p, h, e, v) && Last(v) < m && AllSettled(p, h, e, v, m)
    ensures OutputOf(p, h, e, m) == p.empty && AllSettled(p, h, e, v, m - 1)
  {
    assert Settled(p, h, e, v, m);
    assert forall i | 0 <= i < |v| :: v[i].0 <= Last(v);
  }

  lemma WithoutLast(p: Pipeline, h: seq<StepInput>, e: Name, v: seq<(nat, Output)>, m: nat)
    requires 0 < m <= |h| && Genuine(p, h, e, v) && v != [] && Last(v) == m && AllSettled(p, h, e, v, m)
    ensures
      var u := v[..|v| - 1];
      Genuine(p, h, e, u) && Last(u) <= m - 1 && AllSettled(p, h, e, u, m - 1)
    ensures v[|v| - 1] == (m, OutputOf(p, h, e, m))
  {
    var u := v[..|v| - 1];
    assert Rightful(p, h, e, v[|v| - 1]);
    assert forall i | 0 <= i < |u| :: u[i] == v[i] && Rightful(p, h, e, v[i]);
    forall s | 1 <= s <= m - 1 ensures Settled(p, h, e, u, s) {
      assert Settled(p, h, e, v, s);
      if Has(v, s) {
        var k :| 0 <= k < |v| && v[k].0 == s;
        assert u[k].0 == s;
      }
    }
  }

  /** At every moment of every run, what is visible at an endpoint is the output of some number of
      steps of the uninterrupted execution: nothing is missing, repeated, out of order or invented. */
  lemma VisibleIsPrefix(p: Pipeline, w: World, e: Name)
    requires QuietWhenIdle(p) && e in p.outputs && Silently(p, w)
    ensures e in w.visible && Last(w.visible[e]) <= |w.history|
    ensures NonEmpty(p, w.visible[e]) == NonEmpty(p, Outputs(p, w.history, e, Last(w.visible[e])))
  {
    ReachableDelivery(p, w, e);
    var h, v := w.history, w.visible[e];
    if v != [] {
      assert Rightful(p, h, e, v[|v| - 1]);
    }
    forall s | 1 <= s <= Last(v) ensures Settled(p, h, e, v, s) {
    }
    GenuineAndSettled(p, h, e, v, Last(v));
  }

  /** Once replay has ended and the queue is drained, the endpoint shows every step exactly once. */
  lemma DeliveredExactlyOnce(p: Pipeline, w: World, e: Name)
    requires QuietWhenIdle(p) && e in p.outputs && Silently(p, w)
    requires w.process.Some? && Idle(w.process.value)
    requires e in w.process.value.out.queues && w.process.value.out.queues[e] == []
    ensures e in w.visible
    ensures NonEmpty(p, w.visible[e]) == NonEmpty(p, Outputs(p, w.history, e, |w.history|))
  {
    ReachableDelivery(p, w, e);
    var h, v := w.history, w.visible[e];
    if v != [] {
      assert Rightful(p, h, e, v[|v| - 1]);
    }
    forall s | 1 <= s <= |h| ensures Settled(p, h, e, v, s) {
    }
    GenuineAndSettled(p, h, e, v, |h|);
  }

  // ---------------------------------------------------------------- the condition is exact

  ghost predicate Quiescent(w: World, e: Name)
  {
    && w.process.Some? && Idle(w.process.value)
    && e in w.process.value.out.queues && w.process.value.out.queues[e] == []
  }

  ghost predicate Delivered(p: Pipeline, w: World, e: Name)
  {
    && e in w.visible
    && NonEmpty(p, w.visible[e]) == NonEmpty(p, Outputs(p, w.history, e, |w.history|))
  }

  ghost predicate ExactlyOnce(p: Pipeline)
  {
    forall w, e | Silently(p, w) && e in p.outputs && Quiescent(w, e) :: Delivered(p, w, e)
  }

  /** Between steps, with `pending` endpoints that have yet to send the last step. */
  ghost predicate Draining(p: Pipeline, w: World, q: Process, pending: set<Name>)
  {
    && Silently(p, w) && w.process == Some(q) && Idle(q) && q.running.None?
    && Pending(p, q, |w.history|, pending)
    && AllWithin(p, w.visible, |w.history|)
  }

  ghost predicate AllWithin(p: Pipeline, visible: map<Name, seq<(nat, Output)>>, m: nat)
  {
    visible.Keys == p.outputs && forall n | n in p.outputs :: ShownWithin(visible[n], m)
  }

  lemma WithinMore(p: Pipeline, visible: map<Name, seq<(nat, Output)>>, m: nat)
    requires AllWithin(p, visible, m)
    ensures AllWithin(p, visible, m + 1)
  {
  }

  /** The `pending` endpoints have one more batch, up to step `m`, to send and report. */
  ghost predicate Pending(p: Pipeline, q: Process, m: nat, pending: set<Name>)
  {
    && q.out.queues.Keys == p.outputs && q.out.reported.Keys == p.outputs && pending <= p.outputs
    && (forall n | n in pending ::
          |q.out.queues[n]| == 1 && q.out.queues[n][0].processed == q.processed && q.out.queues[n][0].step <= m)
    && (forall n | n in p.outputs - pending :: q.out.queues[n] == [] && q.out.reported[n] == q.processed)
  }

  lemma ExecutedPending(p: Pipeline, journal: map<nat, StepRecord>, q: Process, b: StepInput, m: nat)
    requires Pending(p, q, m, {}) && q.step <= m
    ensures Pending(p, Executed(p, journal, q, b), m + 1, p.outputs)
  {
  }

  /** Nothing beyond step `m` is visible. */
  ghost predicate ShownWithin(v: seq<(nat, Output)>, m: nat)
  {
    forall k | 0 <= k < |v| :: v[k].0 <= m
  }

  lemma ShowWithin(v: seq<(nat, Output)>, i: Item, m: nat)
    requires ShownWithin(v, m) && i.step <= m
    ensures ShownWithin(Show(v, i), m)
  {
  }

  lemma DrainOne(p: Pipeline, w: World, q: Process, pending: set<Name>, n: Name) returns (v: World, r: Process)
    requires Draining(p, w, q, pending) && n in pending
    ensures Draining(p, v, r, pending - {n}) && v.history == w.history
  {
    SilentNext(p, w, Send(n));
    v := StepIn(p, w, q, Send(n));
    r := v.process.value;
    assert r.out.queues[n] == [];
    ShowWithin(w.visible[n], q.out.queues[n][0], |w.history|);
  }

  lemma {:induction false} DrainAll(p: Pipeline, w: World, q: Process, pending: set<Name>)
      returns (v: World, r: Process)
    requires Draining(p, w, q, pending)
    ensures Draining(p, v, r, {}) && v.history == w.history
    decreases |pending|
  {
    if pending == {} {
      v, r := w, q;
    } else {
      var n :| n in pending;
      v, r := DrainOne(p, w, q, pending, n);
      v, r := DrainAll(p, v, r, pending - {n});
    }
  }

  /** Every legal history can be executed and fully delivered. */
  lemma {:induction false} Attainable(p: Pipeline, h: seq<StepInput>) returns (w: World, q: Process)
    requires HistoryOk(p, h)
    ensures Draining(p, w, q, {}) && w.history == h
  {
    if h == [] {
      assert SilentRun(p, Created(p), []) && Run(p, Created(p), []) == Created(p);
      SilentNext(p, Created(p), Restart);
      w := Step(p, Created(p), Restart);
      q := w.process.value;
    } else {
      var k := |h| - 1;
      HistoryPrefix(p, h, k);
      w, q := Attainable(p, h[..k]);
      w, q := RunStep(p, w, q, h[k]);
      assert h == h[..k] + [h[k]];
      w, q := DrainAll(p, w, q, p.outputs);
    }
  }

  lemma RunStep(p: Pipeline, w: World, q: Process, b: StepInput) returns (v: World, r: Process)
    requires Draining(p, w, q, {}) && InputOk(p, w.history, b)
    ensures Draining(p, v, r, p.outputs) && v.history == w.history + [b] && v.visible == w.visible
    ensures r.processed == q.processed + Total(b)
    ensures r.completed == q.completed && r.out.reported == q.out.reported
  {
    CanIngest(p, w, q, b);
    v, r := IngestAndExecute(p, w, q, b);
    ExecutedPending(p, w.journal[q.step := RecordOf(p, q.step, q.readers.position, b)], q, b, |w.history|);
    WithinMore(p, w.visible, |w.history|);
  }

  lemma IngestAndExecute(p: Pipeline, w: World, q: Process, b: StepInput) returns (v: World, r: Process)
    requires Silently(p, w) && w.process == Some(q) && EnabledIn(p, w, q, Ingest(b))
    ensures Silently(p, v) && v.history == w.history + [b] && v.visible == w.visible && v.process == Some(r)
    ensures
      var x := Executed(p, w.journal[q.step := RecordOf(p, q.step, q.readers.position, b)], q, b);
      r == x.(readers := r.readers)
  {
    var u := IngestFirst(p, w, q, b);
    v, r := ExecuteAfter(p, u, u.process.value, b);
  }

  lemma ExecuteAfter(p: Pipeline, u: World, t: Process, b: StepInput) returns (v: World, r: Process)
    requires Silently(p, u) && u.process == Some(t) && t.ingested == Some(b)
    ensures Silently(p, v) && r == Executed(p, u.journal, t, b) && v == u.(process := Some(r))
  {
    SilentNext(p, u, Execute);
    r := Executed(p, u.journal, t, b);
    v := u.(process := Some(r));
  }

  lemma IngestFirst(p: Pipeline, w: World, q: Process, b: StepInput) returns (u: World)
    requires Silently(p, w) && w.process == Some(q) && EnabledIn(p, w, q, Ingest(b))
    ensures Silently(p, u) && u.history == w.history + [b] && u.visible == w.visible && u.process.Some?
    ensures u.journal == w.journal[q.step := RecordOf(p, q.step, q.readers.position, b)]
    ensures
      var t := u.process.value;
      && t == q.(ingested := Some(b), readers := t.readers)
  {
    SilentNext(p, w, Ingest(b));
    u := StepIn(p, w, q, Ingest(b));
  }

  lemma CanIngest(p: Pipeline, w: World, q: Process, b: StepInput)
    requires Silently(p, w) && w.process == Some(q) && Idle(q) && InputOk(p, w.history, b)
    ensures EnabledIn(p, w, q, Ingest(b)) && q.step == |w.history|
  {
    SilentInv(p, w);
    assert w.history[..|w.history|] == w.history;
  }

  /** After a step that consumes nothing, a checkpoint can become durable before the step's output is
      sent; a crash then loses that output for good. */
  lemma IdleOutputLost(p: Pipeline, w: World, q: Process, b: StepInput, e: Name) returns (v: World)
    requires Draining(p, w, q, {}) && q.completed >= q.processed
    requires InputOk(p, w.history, b) && Total(b) == 0 && e in p.outputs
    ensures Silently(p, v) && Quiescent(v, e) && v.history == w.history + [b] && v.visible == w.visible
  {
    var u, r := RunStep(p, w, q, b);
    u := TakeCheckpoint(p, u, r);
    SilentNext(p, u, Crash);
    u := Step(p, u, Crash);
    SilentInv(p, u);
    ReopenIdle(p, u, e);
    SilentNext(p, u, Restart);
    v := Step(p, u, Restart);
  }

  /** A process that is idle and fully reported can make a checkpoint durable. */
  lemma TakeCheckpoint(p: Pipeline, w: World, q: Process) returns (u: World)
    requires Silently(p, w) && w.process == Some(q) && Idle(q) && q.running.None? && q.completed >= q.processed
    ensures Silently(p, u) && u.checkpoint.step == |u.history|
    ensures u == w.(checkpoint := CheckpointOf(q), process := Some(q.(running := Some(Running(CheckpointOf(q), true)))))
  {
    SilentInv(p, w);
    IdleAtEnd(p, w);
    SilentNext(p, w, BeginCheckpoint);
    u := Step(p, w, BeginCheckpoint);
    SilentNext(p, u, WriteCheckpoint);
    u := Step(p, u, WriteCheckpoint);
  }

  /** Where the checkpoint is up to date, there is nothing to replay. */
  lemma ReopenIdle(p: Pipeline, u: World, e: Name)
    requires Inv(p, u) && u.process.None? && u.checkpoint.step == |u.history| && e in p.outputs
    ensures Quiescent(Step(p, u, Restart), e)
  {
    ReadNext(p, u.history, u.journal, u.checkpoint.step, u.checkpoint.step);
  }

  /** Outputs are delivered exactly once over all runs if and only if steps without input are silent. */
  lemma ExactlyOnceIffQuiet(p: Pipeline)
    ensures ExactlyOnce(p) <==> QuietWhenIdle(p)
  {
    if QuietWhenIdle(p) {
      forall w, e | Silently(p, w) && e in p.outputs && Quiescent(w, e) ensures Delivered(p, w, e) {
        DeliveredExactlyOnce(p, w, e);
      }
    }
    if ExactlyOnce(p) {
      forall h, b, e | HistoryOk(p, h) && InputOk(p, h, b) && Total(b) == 0 && e in p.outputs
        ensures p.output(State(p, h), b, e) == p.empty
      {
        SilentIfExactlyOnce(p, h, b, e);
      }
    }
  }

  lemma OutputsKept(p: Pipeline, h: seq<StepInput>, b: StepInput, e: Name, m: nat)
    requires m <= |h|
    ensures Outputs(p, h + [b], e, m) == Outputs(p, h, e, m)
  {
    if m > 0 {
      OutputKept(p, h, b, e, m);
    }
  }

  lemma NoNewOutput(p: Pipeline, h: seq<StepInput>, b: StepInput, e: Name)
    requires NonEmpty(p, Outputs(p, h, e, |h|)) == NonEmpty(p, Outputs(p, h + [b], e, |h| + 1))
    ensures p.output(State(p, h), b, e) == p.empty
  {
    var g := h + [b];
    OutputsKept(p, h, b, e, |h|);
    var all := Outputs(p, g, e, |g|);
    assert all[..|all| - 1] == Outputs(p, h, e, |h|);
    assert g[..|h|] == h;
  }

  /** Every legal history can be executed, delivered and reported as completed. */
  lemma Completable(p: Pipeline, h: seq<StepInput>) returns (w: World, q: Process)
    requires HistoryOk(p, h)
    ensures Draining(p, w, q, {}) && w.history == h && q.completed >= q.processed
  {
    w, q := Attainable(p, h);
    var e := UpdateCompleted(q.processed);
    SilentNext(p, w, e);
    w := StepIn(p, w, q, e);
    q := w.process.value;
  }

  lemma SilentIfExactlyOnce(p: Pipeline, h: seq<StepInput>, b: StepInput, e: Name)
    requires ExactlyOnce(p)
    requires HistoryOk(p, h) && InputOk(p, h, b) && Total(b) == 0 && e in p.outputs
    ensures p.output(State(p, h), b, e) == p.empty
  {
    var w, q := Completable(p, h);
    assert Delivered(p, w, e);
    var v := IdleOutputLost(p, w, q, b, e);
    assert Delivered(p, v, e);
    NoNewOutput(p, h, b, e);
  }

  // ---------------------------------------------------------------- sending what is not journaled

  /** A terminated pipeline may send the output of a step that it does not journal. Its endpoint then
      shows a batch that no journaled step has, and will discard the next one with that number. */
  lemma UnjournaledOutputSent(p: Pipeline, w: World, q: Process, b: StepInput, e: Name) returns (v: World, i: Item)
    requires Draining(p, w, q, {}) && q.completed >= q.processed
    requires InputOk(p, w.history, b) && e in p.outputs
    ensures Reachable(p, v) && Quiescent(v, e) && v.history == w.history && e in v.visible
    ensures v.visible[e] == Show(w.visible[e], i)
    ensures i.step == |w.history| + 1 && i.batch == p.output(State(p, w.history), b, e)
  {
    var u := TakeCheckpoint(p, w, q);
    SilentInv(p, u);
    IdleAtEnd(p, u);
    v, i := StopAndReopen(p, u, u.process.value, b, e);
  }

  lemma StopAndReopen(p: Pipeline, u: World, q: Process, b: StepInput, e: Name) returns (v: World, i: Item)
    requires Reachable(p, u) && u.process == Some(q) && AtEnd(p, u.history, q) && InputOk(p, u.history, b)
    requires u.checkpoint.step == |u.history| && e in p.outputs
    requires e in q.out.queues && e in u.visible && q.out.queues[e] == []
    ensures Reachable(p, v) && Quiescent(v, e) && v.history == u.history && e in v.visible
    ensures v.visible[e] == Show(u.visible[e], i) && i.step == q.step + 1 && i.batch == p.output(q.circuit, b, e)
  {
    i := Item(q.step + 1, p.output(q.circuit, b, e), q.processed + Total(b));
    StopEnabled(p, u, q, b, e);
    ReachNext(p, u, Stop(b, {e}));
    var t := Stopped(p, u, q, b, {e});
    ReachableInv(p, t);
    ReopenIdle(p, t, e);
    ReachNext(p, t, Restart);
    v := Step(p, t, Restart);
  }

  lemma StopEnabled(p: Pipeline, u: World, q: Process, b: StepInput, e: Name)
    requires u.process == Some(q) && AtEnd(p, u.history, q) && InputOk(p, u.history, b)
    requires e in q.out.queues && e in u.visible && q.out.queues[e] == []
    ensures EnabledIn(p, u, q, Stop(b, {e}))
  {
  }

  ghost predicate AlwaysExactlyOnce(p: Pipeline)
  {
    forall w, e | Reachable(p, w) && e in p.outputs && Quiescent(w, e) :: Delivered(p, w, e)
  }

  ghost predicate NeverOutputs(p: Pipeline)
  {
    forall h, b, e | HistoryOk(p, h) && InputOk(p, h, b) && e in p.outputs :: p.output(State(p, h), b, e) == p.empty
  }

  lemma NothingNewShown(p: Pipeline, v: seq<(nat, Output)>, i: Item, m: nat)
    requires ShownWithin(v, m) && m < i.step && NonEmpty(p, Show(v, i)) == NonEmpty(p, v)
    ensures i.batch == p.empty
  {
    var u := Show(v, i);
    assert u[..|u| - 1] == v;
  }

  /** Nothing is lost or invented in all runs, with unjournaled output sent at any orderly end, if and
      only if there is nothing to lose or invent. So the runs of `ExactlyOnceIffQuiet` are needed. */
  lemma AlwaysIffNothing(p: Pipeline)
    ensures AlwaysExactlyOnce(p) <==> NeverOutputs(p)
  {
    if AlwaysExactlyOnce(p) {
      forall h, b, e | HistoryOk(p, h) && InputOk(p, h, b) && e in p.outputs
        ensures p.output(State(p, h), b, e) == p.empty
      {
        EmptyIfAlways(p, h, b, e);
      }
    }
    if NeverOutputs(p) {
      forall w, e | Reachable(p, w) && e in p.outputs && Quiescent(w, e) ensures Delivered(p, w, e) {
        var es: seq<Event> :| IsRun(p, Created(p), es) && Run(p, Created(p), es) == w;
        CreatedInv(p);
        RunStaysBlank(p, Created(p), es, e);
        ReachableInv(p, w);
        BlankShowsNothing(p, w.visible[e]);
        NothingToShow(p, w.history, e, |w.history|);
      }
    }
  }

  lemma EmptyIfAlways(p: Pipeline, h: seq<StepInput>, b: StepInput, e: Name)
    requires AlwaysExactlyOnce(p)
    requires HistoryOk(p, h) && InputOk(p, h, b) && e in p.outputs
    ensures p.output(State(p, h), b, e) == p.empty
  {
    var w, q := Completable(p, h);
    SilentInv(p, w);
    assert Delivered(p, w, e) && ShownWithin(w.visible[e], |h|);
    var v, i := UnjournaledOutputSent(p, w, q, b, e);
    assert Delivered(p, v, e);
    NothingNewShown(p, w.visible[e], i, |h|);
  }

  // Where no step outputs anything, every visible or queued batch is empty.

  ghost predicate BlankShown(p: Pipeline, v: seq<(nat, Output)>)
  {
    forall k | 0 <= k < |v| :: v[k].1 == p.empty
  }

  ghost predicate BlankQueue(p: Pipeline, queue: seq<Item>)
  {
    forall k | 0 <= k < |queue| :: queue[k].batch == p.empty
  }

  ghost predicate Blank(p: Pipeline, w: World, e: Name)
  {
    && e in w.visible && BlankShown(p, w.visible[e])
    && (w.process.Some? ==> e in w.process.value.out.queues && BlankQueue(p, w.process.value.out.queues[e]))
  }

  lemma ShowStaysBlank(p: Pipeline, v: seq<(nat, Output)>, i: Item)
    requires BlankShown(p, v) && i.batch == p.empty
    ensures BlankShown(p, Show(v, i))
  {
  }

  lemma ExecuteStaysBlank(p: Pipeline, w: World, q: Process, b: StepInput, e: Name)
    requires NeverOutputs(p) && e in p.outputs && HistoryOk(p, w.history) && Blank(p, w, e) && w.process == Some(q)
    requires CircuitOk(p, w.history, q.step, q.circuit, q.processed) && q.step < |w.history| && b == w.history[q.step]
    ensures Blank(p, w.(process := Some(Executed(p, w.journal, q, b))), e)
  {
    HistoryPrefix(p, w.history, q.step);
    assert p.output(q.circuit, b, e) == p.empty;
  }

  lemma StopStaysBlank(p: Pipeline, w: World, q: Process, b: StepInput, sent: set<Name>, e: Name)
    requires NeverOutputs(p) && e in p.outputs && Inv(p, w) && Blank(p, w, e) && w.process == Some(q)
    requires EnabledIn(p, w, q, Stop(b, sent))
    ensures Blank(p, Stopped(p, w, q, b, sent), e)
  {
    IdleAtEnd(p, w);
    assert InputOk(p, w.history, b);
    ShowStaysBlank(p, w.visible[e], Item(q.step + 1, p.output(q.circuit, b, e), q.processed + Total(b)));
  }

  lemma SendStaysBlank(p: Pipeline, w: World, q: Process, n: Name, e: Name)
    requires Blank(p, w, e) && w.process == Some(q) && EnabledIn(p, w, q, Send(n))
    ensures Blank(p, Sent(w, q, n), e)
  {
    if n == e {
      ShowStaysBlank(p, w.visible[e], q.out.queues[e][0]);
    }
  }

  lemma StepStaysBlank(p: Pipeline, w: World, ev: Event, e: Name)
    requires NeverOutputs(p) && e in p.outputs && Inv(p, w) && Blank(p, w, e) && Enabled(p, w, ev)
    ensures Blank(p, Step(p, w, ev), e)
  {
    match w.process {
      case None =>
      case Some(q) =>
        match ev {
          case Execute => ExecuteStaysBlank(p, w, q, q.ingested.value, e);
          case Send(n) => SendStaysBlank(p, w, q, n, e);
          case Stop(b, sent) => StopStaysBlank(p, w, q, b, sent, e);
          case _ =>
        }
    }
  }

  lemma {:induction false} RunStaysBlank(p: Pipeline, w: World, es: seq<Event>, e: Name)
    requires NeverOutputs(p) && e in p.outputs && Inv(p, w) && Blank(p, w, e) && IsRun(p, w, es)
    ensures Blank(p, Run(p, w, es), e)
    decreases |es|
  {
    if es != [] {
      StepKeepsInv(p, w, es[0]);
      StepStaysBlank(p, w, es[0], e);
      RunStaysBlank(p, Step(p, w, es[0]), es[1..], e);
    }
  }

  lemma {:induction false} BlankShowsNothing(p: Pipeline, v: seq<(nat, Output)>)
    requires BlankShown(p, v)
    ensures NonEmpty(p, v) == []
  {
    if v != [] {
      BlankShowsNothing(p, v[..|v| - 1]);
    }
  }

  lemma NoOutput(p: Pipeline, h: seq<StepInput>, e: Name, s: nat)
    requires NeverOutputs(p) && e in p.outputs && HistoryOk(p, h) && 1 <= s <= |h|
    ensures OutputOf(p, h, e, s) == p.empty
  {
    HistoryPrefix(p, h, s - 1);
  }

  lemma {:induction false} NothingToShow(p: Pipeline, h: seq<StepInput>, e: Name, m: nat)
    requires NeverOutputs(p) && e in p.outputs && HistoryOk(p, h) && m <= |h|
    ensures NonEmpty(p, Outputs(p, h, e, m)) == []
  {
    if m > 0 {
      NothingToShow(p, h, e, m - 1);
      NoOutput(p, h, e, m);
      var all := Outputs(p, h, e, m);
      assert all[..|all| - 1] == Outputs(p, h, e, m - 1);
    }
  }
}
