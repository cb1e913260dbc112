/** An output endpoint's thread: it moves batches from the endpoint's queue, through an optional
    buffer, to the encoder, and reports progress. */
module OutputThread {
  import opened Common

  type Row(==, !new)

  /** A Z-set: how many updates it is made of, and the net weight of each row if there are any. */
  datatype Batch = Batch(len: nat, weight: Row -> int)

  /** A queue entry. `data` is absent while the endpoint sits out the transaction that it was created
      in, and `processed`, the progress label, is absent while the circuit is executing a transaction. */
  datatype Item = Item(step: nat, data: Option<seq<Batch>>, processed: Option<nat>)

  // ---------------------------------------------------------------- Z-sets

  function Weight(b: Batch, r: Row): int
  {
    if b.len == 0 then 0 else b.weight(r)
  }

  /** The same Z-set, perhaps made of other updates. */
  ghost predicate Same(a: Batch, b: Batch)
  {
    forall r :: Weight(a, r) == Weight(b, r)
  }

  /** `sum` is made of the updates of `a` and `b`. */
  ghost predicate IsSum(sum: Batch, a: Batch, b: Batch)
  {
    sum.len == a.len + b.len && forall r :: Weight(sum, r) == Weight(a, r) + Weight(b, r)
  }

  function Nothing(): Batch
  {
    Batch(0, r => 0)
  }

  function Sum(a: Batch, b: Batch): Batch
  {
    Batch(a.len + b.len, r => Weight(a, r) + Weight(b, r))
  }

  lemma SumIsSum(a: Batch, b: Batch)
    ensures IsSum(Sum(a, b), a, b)
  {
  }

  lemma SumAssoc(sum: Batch, ab: Batch, a: Batch, b: Batch, bc: Batch, c: Batch)
    requires IsSum(ab, a, b) && IsSum(sum, ab, c) && IsSum(bc, b, c)
    ensures IsSum(sum, a, bc)
  {
  }

  /** Everything in the first `k` batches. */
  function Flat(batches: seq<Batch>, k: nat): Batch
    requires k <= |batches|
  {
    if k == 0 then Nothing() else Sum(Flat(batches, k - 1), batches[k - 1])
  }

  function Data(i: Item): Batch
  {
    match i.data
    case None => Nothing()
    case Some(batches) => Flat(batches, |batches|)
  }

  /** Net weight of a row in the first `k` batches. */
  function Net(batches: seq<Batch>, k: nat, r: Row): int
    requires k <= |batches|
  {
    if k == 0 then 0 else Net(batches, k - 1, r) + Weight(batches[k - 1], r)
  }

  /** Net weight of a row in the first `k` items. */
  function NetItems(items: seq<Item>, k: nat, r: Row): int
    requires k <= |items|
  {
    if k == 0 then 0 else NetItems(items, k - 1, r) + Weight(Data(items[k - 1]), r)
  }

  /** Number of updates in the first `k` batches. */
  function Updates(batches: seq<Batch>, k: nat): nat
    requires k <= |batches|
  {
    if k == 0 then 0 else Updates(batches, k - 1) + batches[k - 1].len
  }

  /** An item has the updates of all its batches, and every row has the sum of its weights in them. */
  lemma DataMeans(i: Item, r: Row)
    ensures i.data.None? ==> Data(i).len == 0 && Weight(Data(i), r) == 0
    ensures i.data.Some? ==>
              && Data(i).len == Updates(i.data.value, |i.data.value|)
              && Weight(Data(i), r) == Net(i.data.value, |i.data.value|, r)
  {
    if i.data.Some? {
      FlatMeans(i.data.value, |i.data.value|, r);
    }
  }

  lemma {:induction false} FlatMeans(batches: seq<Batch>, k: nat, r: Row)
    requires k <= |batches|
    ensures Flat(batches, k).len == Updates(batches, k) && Weight(Flat(batches, k), r) == Net(batches, k, r)
  {
    if k > 0 {
      FlatMeans(batches, k - 1, r);
      SumIsSum(Flat(batches, k - 1), batches[k - 1]);
    }
  }

  lemma {:induction false} NetKept(batches: seq<Batch>, b: Batch, k: nat, r: Row)
    requires k <= |batches|
    ensures Net(batches + [b], k, r) == Net(batches, k, r)
  {
    if k > 0 {
      NetKept(batches, b, k - 1, r);
    }
  }

  lemma {:induction false} NetItemsKept(items: seq<Item>, i: Item, k: nat, r: Row)
    requires k <= |items|
    ensures NetItems(items + [i], k, r) == NetItems(items, k, r)
  {
    if k > 0 {
      NetItemsKept(items, i, k - 1, r);
    }
  }

  // ---------------------------------------------------------------- labels

  /** The last progress label among the first `k` items, or 0 if there is none. */
  function LastLabel(items: seq<Item>, k: nat): nat
    requires k <= |items|
  {
    if k == 0 then 0
    else if items[k - 1].processed.Some? then items[k - 1].processed.value
    else LastLabel(items, k - 1)
  }

  predicate Labelled(items: seq<Item>, k: nat)
    requires k <= |items|
  {
    k > 0 && (items[k - 1].processed.Some? || Labelled(items, k - 1))
  }

  /** The labels of the first `k` items never decrease. */
  predicate Monotone(items: seq<Item>, k: nat)
    requires k <= |items|
  {
    k == 0 ||
    (Monotone(items, k - 1)
     && (items[k - 1].processed.Some? ==> LastLabel(items, k - 1) <= items[k - 1].processed.value))
  }

  /** Among the first `k` items, labels from the item `early` on are at or above `initial`. */
  predicate LabelsFrom(items: seq<Item>, early: nat, k: nat, initial: nat)
    requires k <= |items|
  {
    k <= early ||
    (LabelsFrom(items, early, k - 1, initial)
     && (items[k - 1].processed.Some? ==> initial <= items[k - 1].processed.value))
  }

  /** Every label among the first `k` items is an early one below `initial`. */
  predicate OnlyEarlyLabels(items: seq<Item>, k: nat, early: nat, initial: nat)
    requires k <= |items|
  {
    k == 0 ||
    (OnlyEarlyLabels(items, k - 1, early, initial)
     && (items[k - 1].processed.Some? ==> k - 1 < early && items[k - 1].processed.value < initial))
  }

  /** The last label is that of a labelled item that no labelled one follows, if there is one. */
  lemma {:induction false} LastLabelMeans(items: seq<Item>, k: nat)
    requires k <= |items|
    ensures Labelled(items, k) <==> exists j | 0 <= j < k :: items[j].processed.Some?
    ensures !Labelled(items, k) ==> LastLabel(items, k) == 0
    ensures Labelled(items, k) ==>
              exists j | 0 <= j < k ::
                && items[j].processed == Some(LastLabel(items, k))
                && forall l | j < l < k :: items[l].processed.None?
  {
    if k > 0 {
      LastLabelMeans(items, k - 1);
    }
  }

  lemma {:induction false} OnlyEarlyMeans(items: seq<Item>, k: nat, early: nat, initial: nat)
    requires k <= |items|
    ensures OnlyEarlyLabels(items, k, early, initial)
      <==> forall j | 0 <= j < k && items[j].processed.Some? :: j < early && items[j].processed.value < initial
  {
    if k > 0 {
      OnlyEarlyMeans(items, k - 1, early, initial);
    }
  }

  lemma {:induction false} LabelKept(items: seq<Item>, i: Item, k: nat)
    requires k <= |items|
    ensures LastLabel(items + [i], k) == LastLabel(items, k)
  {
    if k > 0 {
      LabelKept(items, i, k - 1);
    }
  }

  lemma {:induction false} LabelledKept(items: seq<Item>, i: Item, k: nat)
    requires k <= |items|
    ensures Labelled(items + [i], k) == Labelled(items, k)
  {
    if k > 0 {
      LabelledKept(items, i, k - 1);
    }
  }

  lemma {:induction false} LabelsFromKept(items: seq<Item>, i: Item, early: nat, k: nat, initial: nat)
    requires k <= |items|
    ensures LabelsFrom(items + [i], early, k, initial) == LabelsFrom(items, early, k, initial)
  {
    if k > early {
      LabelsFromKept(items, i, early, k - 1, initial);
    }
  }

  lemma {:induction false} MonotoneKept(items: seq<Item>, i: Item, k: nat)
    requires k <= |items|
    ensures Monotone(items + [i], k) == Monotone(items, k)
  {
    if k > 0 {
      MonotoneKept(items, i, k - 1);
      LabelKept(items, i, k - 1);
    }
  }

  lemma MonotoneSnoc(items: seq<Item>, i: Item)
    requires Monotone(items, |items|)
    requires i.processed.Some? ==> LastLabel(items, |items|) <= i.processed.value
    ensures Monotone(items + [i], |items| + 1)
  {
    MonotoneKept(items, i, |items|);
    LabelKept(items, i, |items|);
  }

  lemma {:induction false} LabelsGrow(items: seq<Item>, j: nat, k: nat)
    requires j <= k <= |items| && Monotone(items, k)
    ensures LastLabel(items, j) <= LastLabel(items, k)
    decreases k
  {
    if j < k {
      LabelsGrow(items, j, k - 1);
    }
  }

  lemma {:induction false} MonotonePrefix(items: seq<Item>, j: nat, k: nat)
    requires j <= k <= |items| && Monotone(items, k)
    ensures Monotone(items, j)
  {
    if j < k {
      MonotonePrefix(items, j, k - 1);
    }
  }

  lemma {:induction false} LabelsFromPrefix(items: seq<Item>, early: nat, j: nat, k: nat, initial: nat)
    requires j <= k <= |items| && LabelsFrom(items, early, k, initial)
    ensures LabelsFrom(items, early, j, initial)
  {
    if j < k {
      LabelsFromPrefix(items, early, j, k - 1, initial);
    }
  }

  /** No label has reached `initial` exactly if there are only early ones below it. */
  lemma {:induction false} BelowInitial(items: seq<Item>, k: nat, early: nat, initial: nat)
    requires k <= |items| && Monotone(items, k) && LabelsFrom(items, early, k, initial) && initial > 0
    ensures LastLabel(items, k) < initial <==> OnlyEarlyLabels(items, k, early, initial)
  {
    if k > 0 {
      BelowInitial(items, k - 1, early, initial);
    }
  }

  // ---------------------------------------------------------------- counters

  /** Number of records in the first `k` items. */
  function RecordsIn(items: seq<Item>, k: nat): nat
    requires k <= |items|
  {
    if k == 0 then 0 else RecordsIn(items, k - 1) + Data(items[k - 1]).len
  }

  /** Number of items with data among the first `k`. */
  function BatchesIn(items: seq<Item>, k: nat): nat
    requires k <= |items|
  {
    if k == 0 then 0 else BatchesIn(items, k - 1) + if items[k - 1].data.Some? then 1 else 0
  }

  lemma {:induction false} CountersKept(items: seq<Item>, i: Item, k: nat)
    requires k <= |items|
    ensures RecordsIn(items + [i], k) == RecordsIn(items, k)
    ensures BatchesIn(items + [i], k) == BatchesIn(items, k)
  {
    if k > 0 {
      CountersKept(items, i, k - 1);
    }
  }

  /** The gauges of an endpoint's queue after `taken` of the items have left it. Neither the first
      `early` items, pushed before the endpoint had statistics, nor items without data are counted when
      they are pushed, but all are subtracted when they are popped. */
  ghost predicate Gauged(pushed: seq<Item>, early: nat, taken: nat, records: int, batches: int)
    requires early <= |pushed| && taken <= |pushed|
  {
    && records == RecordsIn(pushed, |pushed|) - RecordsIn(pushed, early) - RecordsIn(pushed, taken)
    && batches == BatchesIn(pushed, |pushed|) - BatchesIn(pushed, early) - taken
  }

  lemma GaugesSnoc(pushed: seq<Item>, early: nat, taken: nat, records: int, batches: int, i: Item)
    requires early <= |pushed| && taken <= |pushed| && Gauged(pushed, early, taken, records, batches)
    ensures Gauged(pushed + [i], early, taken, records + Data(i).len, batches + if i.data.Some? then 1 else 0)
  {
    CountersKept(pushed, i, early);
    CountersKept(pushed, i, taken);
    CountersKept(pushed, i, |pushed|);
  }

  lemma EarlySnoc(pushed: seq<Item>, i: Item)
    ensures Gauged(pushed, |pushed|, 0, 0, 0)
    ensures Gauged(pushed + [i], |pushed| + 1, 0, 0, 0)
  {
  }

  lemma {:induction false} BatchesBound(items: seq<Item>, k: nat)
    requires k <= |items|
    ensures BatchesIn(items, k) <= k
    ensures BatchesIn(items, k) < k <==> exists j | 0 <= j < k :: items[j].data.None?
  {
    if k > 0 {
      BatchesBound(items, k - 1);
    }
  }

  /** The gauges of a drained queue: the records of the early items are missing, and the number of batches
      is below zero (a wrap-around of the original's unsigned counters) if and only if there was an early
      item with data or any item without. */
  lemma DrainedGauges(pushed: seq<Item>, early: nat, records: int, batches: int)
    requires early <= |pushed| && Gauged(pushed, early, |pushed|, records, batches)
    ensures records + RecordsIn(pushed, early) == 0 && batches <= 0
    ensures batches < 0 <==> BatchesIn(pushed, early) > 0 || exists j | 0 <= j < |pushed| :: pushed[j].data.None?
  {
    BatchesBound(pushed, |pushed|);
  }

  // ---------------------------------------------------------------- the buffer

  class OutputBuffer {
    var buffer: Option<Batch>
    var bufferedStep: nat
    var bufferedProcessedRecords: nat

    constructor ()
      ensures buffer.None? && bufferedStep == 0 && bufferedProcessedRecords == 0
    {
      buffer, bufferedStep, bufferedProcessedRecords := None, 0, 0;
    }

    function Held(): Batch
      reads this
    {
      match buffer
      case None => Nothing()
      case Some(b) => b
    }

    predicate IsEmpty()
      reads this
    {
      Held().len == 0
    }

    method Add(b: Batch)
      modifies this`buffer
      ensures buffer.Some? && IsSum(Held(), old(Held()), b)
    {
      SumIsSum(Held(), b);
      buffer := Some(match buffer
                     case Some(held) => Sum(held, b)
                     case None => b);
    }

    /** Adds a batch, if there is one, and takes over its step and, if it has one, its label. */
    method Insert(i: Item)
      modifies this
      ensures IsSum(Held(), old(Held()), Data(i))
      ensures buffer.Some? <==> old(buffer).Some? || (i.data.Some? && i.data.value != [])
      ensures bufferedStep == i.step
      ensures bufferedProcessedRecords == if i.processed.Some? then i.processed.value else old(bufferedProcessedRecords)
    {
      if i.data.Some? {
        var batches := i.data.value;
        for k := 0 to |batches|
          invariant IsSum(Held(), old(Held()), Flat(batches, k))
          invariant buffer.Some? <==> old(buffer).Some? || k > 0
          invariant bufferedProcessedRecords == old(bufferedProcessedRecords)
        {
          ghost var before := Held();
          Add(batches[k]);
          SumIsSum(Flat(batches, k), batches[k]);
          SumAssoc(Held(), before, old(Held()), Flat(batches, k), Flat(batches, k + 1), batches[k]);
        }
      }
      bufferedStep := i.step;
      if i.processed.Some? {
        bufferedProcessedRecords := i.processed.value;
      }
    }

    /** Background merging may rearrange the buffer, but not change the Z-set in it. */
    method Merge(merged: Batch)
      requires buffer.Some? && Same(buffer.value, merged)
      modifies this`buffer
      ensures buffer == Some(merged)
    {
      buffer := Some(merged);
    }

    predicate FlushNeeded(maxRecords: nat, expired: bool)
      reads this
    {
      buffer.Some? && (buffer.value.len >= maxRecords || expired)
    }

    method TakeBuffer() returns (b: Option<Batch>)
      modifies this`buffer
      ensures b == old(buffer) && buffer == None
    {
      b := buffer;
      buffer := None;
    }
  }

  // ---------------------------------------------------------------- the thread's invariant

  /** What has reached the encoder plus what is in the buffer is what has left the queue. */
  ghost predicate Balanced(encoded: seq<Batch>, held: Batch, pushed: seq<Item>, taken: nat)
    requires taken <= |pushed|
  {
    forall r :: Net(encoded, |encoded|, r) + Weight(held, r) == NetItems(pushed, taken, r)
  }

  /** The first `e` encoded batches have the net content of the first `k` items. */
  ghost predicate Matches(encoded: seq<Batch>, e: nat, pushed: seq<Item>, k: nat)
    requires e <= |encoded| && k <= |pushed|
  {
    forall r :: Net(encoded, e, r) == NetItems(pushed, k, r)
  }

  /** Nothing is held back. */
  ghost predicate Flushed(encoded: seq<Batch>, pushed: seq<Item>, taken: nat)
    requires taken <= |pushed|
  {
    Matches(encoded, |encoded|, pushed, taken)
  }

  /** How much had been encoded, and how much taken from the queue, when the label was reported. */
  datatype Mark = Mark(encoded: nat, taken: nat)

  /** At the time of the last report, the encoder had the net content of everything taken from the
      queue, whose last label is the one that was reported. */
  ghost predicate Sound(encoded: seq<Batch>, pushed: seq<Item>, taken: nat, mark: Option<Mark>, reported: nat,
                        initial: nat, buffering: bool)
  {
    match mark
    case None => reported == initial
    case Some(m) =>
      && m.encoded <= |encoded| && m.taken <= taken <= |pushed|
      && Matches(encoded, m.encoded, pushed, m.taken)
      && reported == LastLabel(pushed, m.taken)
      && (buffering || Labelled(pushed, m.taken))
  }

  lemma SoundPush(encoded: seq<Batch>, pushed: seq<Item>, taken: nat, mark: Option<Mark>, reported: nat, initial: nat,
                  buffering: bool, i: Item)
    requires Sound(encoded, pushed, taken, mark, reported, initial, buffering)
    ensures Sound(encoded, pushed + [i], taken, mark, reported, initial, buffering)
  {
    if mark.Some? {
      var k := mark.value.taken;
      forall r ensures NetItems(pushed + [i], k, r) == NetItems(pushed, k, r) {
        NetItemsKept(pushed, i, k, r);
      }
      LabelKept(pushed, i, k);
      LabelledKept(pushed, i, k);
    }
  }

  lemma SoundEncode(encoded: seq<Batch>, pushed: seq<Item>, taken: nat, mark: Option<Mark>, reported: nat, initial: nat,
                    buffering: bool, b: Batch)
    requires Sound(encoded, pushed, taken, mark, reported, initial, buffering)
    ensures Sound(encoded + [b], pushed, taken, mark, reported, initial, buffering)
  {
    if mark.Some? {
      forall r ensures Net(encoded + [b], mark.value.encoded, r) == Net(encoded, mark.value.encoded, r) {
        NetKept(encoded, b, mark.value.encoded, r);
      }
    }
  }

  lemma BalancedPush(encoded: seq<Batch>, held: Batch, pushed: seq<Item>, taken: nat, i: Item)
    requires taken <= |pushed| && Balanced(encoded, held, pushed, taken)
    ensures Balanced(encoded, held, pushed + [i], taken)
  {
    forall r ensures NetItems(pushed + [i], taken, r) == NetItems(pushed, taken, r) {
      NetItemsKept(pushed, i, taken, r);
    }
  }

  lemma BalancedEncode(encoded: seq<Batch>, held: Batch, pushed: seq<Item>, taken: nat)
    requires taken <= |pushed| && Balanced(encoded, held, pushed, taken)
    ensures Flushed(encoded + [held], pushed, taken)
  {
    forall r ensures Net(encoded + [held], |encoded| + 1, r) == NetItems(pushed, taken, r) {
      NetKept(encoded, held, |encoded|, r);
    }
  }

  /** The item at the front of the queue goes on top of what is held. */
  lemma BalancedPop(encoded: seq<Batch>, held: Batch, pushed: seq<Item>, taken: nat, more: Batch)
    requires taken < |pushed| && Balanced(encoded, held, pushed, taken) && IsSum(more, held, Data(pushed[taken]))
    ensures Balanced(encoded, more, pushed, taken + 1)
  {
  }

  lemma BalancedAlone(encoded: seq<Batch>, held: Batch, pushed: seq<Item>, taken: nat)
    requires taken < |pushed| && Balanced(encoded, held, pushed, taken) && held.len == 0
    ensures Balanced(encoded, Data(pushed[taken]), pushed, taken + 1)
    ensures pushed[taken].data.None? ==> Flushed(encoded, pushed, taken + 1)
  {
    var d := Data(pushed[taken]);
    assert IsSum(d, held, d);
    BalancedPop(encoded, held, pushed, taken, d);
    if pushed[taken].data.None? {
      FlushedIffBalanced(encoded, d, pushed, taken + 1);
    }
  }

  lemma FlushedIffBalanced(encoded: seq<Batch>, held: Batch, pushed: seq<Item>, taken: nat)
    requires taken <= |pushed| && held.len == 0
    ensures Balanced(encoded, held, pushed, taken) <==> Flushed(encoded, pushed, taken)
  {
    assert forall r :: Weight(held, r) == 0;
  }

  lemma BalancedMerge(encoded: seq<Batch>, held: Batch, merged: Batch, pushed: seq<Item>, taken: nat)
    requires taken <= |pushed| && Balanced(encoded, held, pushed, taken) && Same(held, merged)
    ensures Balanced(encoded, merged, pushed, taken)
  {
  }

  /** Weight of a row in the items that are still in the queue. */
  function QueuedWeight(pushed: seq<Item>, from: nat, r: Row): int
    requires from <= |pushed|
    decreases |pushed| - from
  {
    if from == |pushed| then 0 else Weight(Data(pushed[from]), r) + QueuedWeight(pushed, from + 1, r)
  }

  /** What is encoded, what is buffered and what is queued make up everything that was pushed. */
  lemma Conservation(encoded: seq<Batch>, held: Batch, pushed: seq<Item>, taken: nat, r: Row)
    requires taken <= |pushed| && Balanced(encoded, held, pushed, taken)
    ensures Net(encoded, |encoded|, r) + Weight(held, r) + QueuedWeight(pushed, taken, r)
            == NetItems(pushed, |pushed|, r)
  {
    AllWeight(pushed, taken, r);
  }

  lemma {:induction false} AllWeight(pushed: seq<Item>, taken: nat, r: Row)
    requires taken <= |pushed|
    ensures NetItems(pushed, taken, r) + QueuedWeight(pushed, taken, r) == NetItems(pushed, |pushed|, r)
    decreases |pushed| - taken
  {
    if taken < |pushed| {
      AllWeight(pushed, taken + 1, r);
    }
  }

  /** A report of the last label among the first `k` items is lower than what was reported before if and
      only if it is the first report and there are only early labels, or none, below the initial one. */
  lemma ReportOrder(encoded: seq<Batch>, pushed: seq<Item>, early: nat, taken: nat, mark: Option<Mark>, reported: nat,
                    initial: nat, buffering: bool, k: nat)
    requires taken <= k <= |pushed| && Monotone(pushed, |pushed|)
    requires LabelsFrom(pushed, early, |pushed|, initial)
    requires Sound(encoded, pushed, taken, mark, reported, initial, buffering)
    ensures LastLabel(pushed, k) < reported
            <==> mark.None? && initial > 0 && OnlyEarlyLabels(pushed, k, early, initial)
  {
    MonotonePrefix(pushed, k, |pushed|);
    if mark.Some? {
      LabelsGrow(pushed, mark.value.taken, k);
    } else if initial > 0 {
      LabelsFromPrefix(pushed, early, k, |pushed|, initial);
      BelowInitial(pushed, k, early, initial);
    }
  }

  /** The buffer's step and label are the latest ones. */
  ghost predicate Buffered(buffer: Option<Batch>, step: nat, processed: nat, pushed: seq<Item>, taken: nat)
    requires taken <= |pushed|
  {
    && processed == LastLabel(pushed, taken)
    && (buffer.Some? ==> taken > 0)
    && (taken > 0 ==> step == pushed[taken - 1].step)
  }

  /** The queue holds all that was pushed but what was taken. */
  ghost predicate Holds(queue: seq<Item>, pushed: seq<Item>, taken: nat)
  {
    taken + |queue| == |pushed| && forall j | 0 <= j < |queue| :: queue[j] == pushed[taken + j]
  }

  /** The queue holds what is left, and its gauges are as `Gauged` says. */
  ghost predicate QueueOk(pushed: seq<Item>, early: nat, taken: nat, queue: seq<Item>, records: int, batches: int,
                          hasStatistics: bool, initial: nat)
  {
    && early <= |pushed| && taken <= |pushed| && Holds(queue, pushed, taken)
    && (!hasStatistics ==> early == |pushed| && taken == 0)
    && Monotone(pushed, |pushed|) && LabelsFrom(pushed, early, |pushed|, initial)
    && Gauged(pushed, early, taken, records, batches)
  }

  predicate LabelFits(pushed: seq<Item>, hasStatistics: bool, initial: nat, i: Item)
  {
    i.processed.Some? ==>
      LastLabel(pushed, |pushed|) <= i.processed.value && (hasStatistics ==> initial <= i.processed.value)
  }

  lemma QueuePush(pushed: seq<Item>, early: nat, taken: nat, queue: seq<Item>, records: int, batches: int,
                  hasStatistics: bool, initial: nat, i: Item)
    requires QueueOk(pushed, early, taken, queue, records, batches, hasStatistics, initial)
    requires LabelFits(pushed, hasStatistics, initial, i)
    ensures
      if hasStatistics
      then QueueOk(pushed + [i], early, taken, queue + [i], records + Data(i).len,
                   batches + if i.data.Some? then 1 else 0, true, initial)
      else QueueOk(pushed + [i], early + 1, taken, queue + [i], records, batches, false, initial)
  {
    MonotoneSnoc(pushed, i);
    LabelsFromKept(pushed, i, early, |pushed|, initial);
    EarlySnoc(pushed, i);
    GaugesSnoc(pushed, early, taken, records, batches, i);
  }

  lemma QueuePop(pushed: seq<Item>, early: nat, taken: nat, queue: seq<Item>, records: int, batches: int, initial: nat)
      returns (rest: seq<Item>)
    requires QueueOk(pushed, early, taken, queue, records, batches, true, initial) && queue != []
    ensures taken < |pushed| && queue[0] == pushed[taken] && rest == queue[1..]
    ensures QueueOk(pushed, early, taken + 1, rest, records - Data(pushed[taken]).len, batches - 1, true, initial)
  {
    rest := queue[1..];
    forall j | 0 <= j < |rest| ensures rest[j] == pushed[taken + 1 + j] {
      assert queue[1 + j] == pushed[taken + (1 + j)];
    }
  }

  // ---------------------------------------------------------------- the thread

  class OutputThread {
    const buffering: bool
    const maxRecords: nat
    const buffer: OutputBuffer
    var hasStatistics: bool
    var initial: nat // total processed records when the endpoint's statistics were created
    var queue: seq<Item>
    var reported: nat // the endpoint's `total_processed_input_records`
    var queuedRecords: int
    var queuedBatches: int
    ghost var pushed: seq<Item> // everything ever pushed
    ghost var early: nat // how much of it came before the endpoint had statistics
    ghost var taken: nat // how much of it has left the queue
    ghost var encoded: seq<Batch>
    ghost var steps: seq<nat> // the step that each encoded batch was sent under
    ghost var mark: Option<Mark>

    ghost predicate Queued()
      reads this`pushed, this`early, this`taken, this`queue, this`queuedRecords, this`queuedBatches,
            this`hasStatistics, this`initial
    {
      QueueOk(pushed, early, taken, queue, queuedRecords, queuedBatches, hasStatistics, initial)
    }

    ghost predicate Reporting()
      reads this`pushed, this`taken, this`encoded, this`steps, this`mark, this`reported, this`initial
    {
      Sound(encoded, pushed, taken, mark, reported, initial, buffering) && |steps| == |encoded|
    }

    ghost predicate Valid()
      reads this, buffer
    {
      && Queued() && Reporting()
      && (!hasStatistics ==> mark.None?)
      && Balanced(encoded, buffer.Held(), pushed, taken)
      && if buffering then Buffered(buffer.buffer, buffer.bufferedStep, buffer.bufferedProcessedRecords, pushed, taken)
         else buffer.buffer.None?
    }

    /** The endpoint is registered, and gets pushes, before it has statistics. */
    constructor (buffering: bool, maxRecords: nat)
      ensures Valid() && fresh(buffer) && queue == pushed == [] && encoded == [] && !hasStatistics && taken == 0
      ensures buffer.buffer.None? && this.buffering == buffering && this.maxRecords == maxRecords
    {
      this.buffering, this.maxRecords := buffering, maxRecords;
      buffer := new OutputBuffer();
      hasStatistics, initial, reported, queue, queuedRecords, queuedBatches := false, 0, 0, [], 0, 0;
      pushed, early, taken, encoded, steps, mark := [], 0, 0, [], [], None;
    }

    /** `add_output` initializes the reported count to the records processed so far. The thread starts
        afterwards. */
    method AddStatistics(processed: nat)
      requires Valid() && !hasStatistics
      modifies this`hasStatistics, this`initial, this`reported
      ensures Valid() && hasStatistics && initial == reported == processed && mark.None?
    {
      hasStatistics, initial, reported := true, processed, processed;
    }

    /** `push_output` counts an item in the queue's gauges only if the endpoint has statistics and the
        item has data. Once there are statistics, labels are at or above the initial count. */
    method Push(i: Item)
      requires Valid() && LabelFits(pushed, hasStatistics, initial, i)
      modifies this`queue, this`queuedRecords, this`queuedBatches, this`pushed, this`early
      ensures Valid() && pushed == old(pushed) + [i] && queue == old(queue) + [i]
      ensures early == if hasStatistics then old(early) else |pushed|
      ensures queuedRecords == old(queuedRecords) + if hasStatistics then Data(i).len else 0
      ensures queuedBatches == old(queuedBatches) + if hasStatistics && i.data.Some? then 1 else 0
    {
      SoundPush(encoded, pushed, taken, mark, reported, initial, buffering, i);
      BalancedPush(encoded, buffer.Held(), pushed, taken, i);
      LabelKept(pushed, i, taken);
      Enqueue(i);
    }

    method Enqueue(i: Item)
      requires Queued() && LabelFits(pushed, hasStatistics, initial, i)
      modifies this`queue, this`queuedRecords, this`queuedBatches, this`pushed, this`early
      ensures Queued() && pushed == old(pushed) + [i] && queue == old(queue) + [i]
      ensures early == if hasStatistics then old(early) else |pushed|
      ensures queuedRecords == old(queuedRecords) + if hasStatistics then Data(i).len else 0
      ensures queuedBatches == old(queuedBatches) + if hasStatistics && i.data.Some? then 1 else 0
    {
      QueuePush(pushed, early, taken, queue, queuedRecords, queuedBatches, hasStatistics, initial, i);
      if hasStatistics {
        if i.data.Some? {
          queuedRecords := queuedRecords + Data(i).len;
          queuedBatches := queuedBatches + 1;
        }
      } else {
        early := early + 1;
      }
      queue := queue + [i];
      pushed := pushed + [i];
    }

    method Merge(merged: Batch)
      requires Valid() && buffer.buffer.Some? && Same(buffer.buffer.value, merged)
      modifies buffer`buffer
      ensures Valid()
    {
      BalancedMerge(encoded, buffer.Held(), merged, pushed, taken);
      buffer.Merge(merged);
    }

    /** Reports the last label, once the encoder has everything that was taken from the queue. */
    method Report(processed: nat)
      requires taken <= |pushed| && Flushed(encoded, pushed, taken) && processed == LastLabel(pushed, taken)
      requires (buffering || Labelled(pushed, taken)) && |steps| == |encoded|
      modifies this`reported, this`mark
      ensures reported == processed && Reporting()
    {
      reported := processed;
      mark := Some(Mark(|encoded|, taken));
    }

    /** Hands a batch to the encoder under the given step. */
    method Encode(b: Batch, step: nat)
      requires Reporting() && taken <= |pushed| && Balanced(encoded, b, pushed, taken)
      modifies this`encoded, this`steps
      ensures Reporting() && Flushed(encoded, pushed, taken)
      ensures encoded == old(encoded) + [b] && steps == old(steps) + [step]
    {
      SoundEncode(encoded, pushed, taken, mark, reported, initial, buffering, b);
      BalancedEncode(encoded, b, pushed, taken);
      encoded, steps := encoded + [b], steps + [step];
    }

    /** Empties the buffer into the encoder. */
    method Flush()
      requires Valid() && hasStatistics && buffering && buffer.buffer.Some?
      modifies this`encoded, this`steps, this`reported, this`mark, buffer`buffer
      ensures Valid() && Flushed(encoded, pushed, taken) && reported == LastLabel(pushed, taken)
      ensures encoded == old(encoded) + [old(buffer.Held())] && buffer.buffer.None?
      ensures taken > 0 && steps == old(steps) + [pushed[taken - 1].step]
    {
      var b := buffer.TakeBuffer();
      Encode(b.value, buffer.bufferedStep);
      Report(buffer.bufferedProcessedRecords);
      FlushedIffBalanced(encoded, buffer.Held(), pushed, taken);
    }

    method Dequeue() returns (i: Item)
      requires hasStatistics && queue != [] && Queued() && Reporting()
      modifies this`queue, this`taken, this`queuedRecords, this`queuedBatches
      ensures Queued() && Reporting() && taken == old(taken) + 1
      ensures i == pushed[taken - 1]
    {
      ghost var rest := QueuePop(pushed, early, taken, queue, queuedRecords, queuedBatches, initial);
      i := queue[0];
      queue := queue[1..];
      taken := taken + 1;
      queuedRecords := queuedRecords - Data(i).len;
      queuedBatches := queuedBatches - 1;
    }

    /** Puts the item just taken from the queue into the buffer. */
    method Buffer(i: Item, ghost k: nat) returns (report: bool)
      requires hasStatistics && buffering && Queued() && Reporting() && taken == k + 1 && pushed[k] == i
      requires Balanced(encoded, buffer.Held(), pushed, k)
      requires buffer.bufferedProcessedRecords == LastLabel(pushed, k)
      modifies this`reported, this`mark, buffer
      ensures Valid() && IsSum(buffer.Held(), old(buffer.Held()), Data(i)) && (report <==> buffer.IsEmpty())
      ensures report ==> Flushed(encoded, pushed, taken) && reported == LastLabel(pushed, taken)
      ensures !report ==> reported == old(reported)
    {
      ghost var held := buffer.Held();
      buffer.Insert(i);
      BalancedPop(encoded, held, pushed, k, buffer.Held());
      report := buffer.IsEmpty();
      if report {
        FlushedIffBalanced(encoded, buffer.Held(), pushed, taken);
        Report(buffer.bufferedProcessedRecords);
      }
    }

    /** Hands the data of the item just taken from the queue, if any, to the encoder. */
    method EncodeItem(i: Item, ghost k: nat)
      requires Reporting() && taken == k + 1 <= |pushed| && pushed[k] == i && buffer.buffer.None?
      requires Balanced(encoded, buffer.Held(), pushed, k)
      modifies this`encoded, this`steps
      ensures Reporting() && Flushed(encoded, pushed, taken)
      ensures encoded == if i.data.Some? then old(encoded) + [Data(i)] else old(encoded)
      ensures steps == if i.data.Some? then old(steps) + [i.step] else old(steps)
    {
      BalancedAlone(encoded, buffer.Held(), pushed, k);
      if i.data.Some? {
        Encode(Data(i), i.step);
      }
    }

    /** Hands the item just taken from the queue to the encoder, and reports its label, if any. */
    method Forward(i: Item, ghost k: nat) returns (report: bool)
      requires hasStatistics && !buffering && buffer.buffer.None?
      requires Queued() && Reporting() && taken == k + 1 && pushed[k] == i
      requires Balanced(encoded, buffer.Held(), pushed, k)
      modifies this`encoded, this`steps, this`reported, this`mark
      ensures Valid() && (report <==> i.processed.Some?)
      ensures encoded == if i.data.Some? then old(encoded) + [Data(i)] else old(encoded)
      ensures steps == if i.data.Some? then old(steps) + [i.step] else old(steps)
      ensures report ==> Flushed(encoded, pushed, taken) && reported == LastLabel(pushed, taken)
      ensures !report ==> reported == old(reported)
    {
      EncodeItem(i, k);
      FlushedIffBalanced(encoded, buffer.Held(), pushed, taken);
      report := i.processed.Some?;
      if report {
        Report(i.processed.value);
      }
    }

    /** Where an item taken from the queue has gone: into the buffer, or to the encoder. */
    ghost predicate Moved(i: Item, report: bool, encoded0: seq<Batch>, steps0: seq<nat>, held0: Batch)
      reads this`encoded, this`steps, buffer
    {
      if buffering then
        && encoded == encoded0 && steps == steps0
        && IsSum(buffer.Held(), held0, Data(i)) && (report <==> buffer.Held().len == 0)
      else
        && encoded == (if i.data.Some? then encoded0 + [Data(i)] else encoded0)
        && steps == (if i.data.Some? then steps0 + [i.step] else steps0)
        && (report <==> i.processed.Some?)
    }

    /** Nothing has happened. */
    ghost predicate Stays(report: bool, taken0: nat, encoded0: seq<Batch>, steps0: seq<nat>, buffer0: Option<Batch>)
      reads this`taken, this`encoded, this`steps, buffer
    {
      taken == taken0 && encoded == encoded0 && steps == steps0 && buffer.buffer == buffer0 && !report
    }

    /** One item has been taken from the queue. */
    ghost predicate Takes(report: bool, taken0: nat, encoded0: seq<Batch>, steps0: seq<nat>, buffer0: Option<Batch>)
      reads this`pushed, this`taken, this`encoded, this`steps, buffer
    {
      && taken == taken0 + 1 && taken <= |pushed|
      && Moved(pushed[taken0], report, encoded0, steps0, if buffer0.Some? then buffer0.value else Nothing())
    }

    /** Takes one batch from the queue. */
    method Take() returns (i: Item, report: bool)
      requires Valid() && hasStatistics && queue != []
      modifies this`queue, this`taken, this`queuedRecords, this`queuedBatches
      modifies this`encoded, this`steps, this`reported, this`mark, buffer
      ensures Valid() && taken == old(taken) + 1 && i == pushed[taken - 1]
      ensures Moved(i, report, old(encoded), old(steps), old(buffer.Held()))
      ensures report ==> Flushed(encoded, pushed, taken) && reported == LastLabel(pushed, taken)
      ensures !report ==> reported == old(reported)
    {
      if buffering {
        i, report := TakeBuffered();
      } else {
        i, report := TakeForward();
      }
    }

    method TakeBuffered() returns (i: Item, report: bool)
      requires Valid() && hasStatistics && queue != [] && buffering
      modifies this`queue, this`taken, this`queuedRecords, this`queuedBatches
      modifies this`reported, this`mark, buffer
      ensures Valid() && taken == old(taken) + 1 && i == pushed[taken - 1]
      ensures IsSum(buffer.Held(), old(buffer.Held()), Data(i)) && (report <==> buffer.IsEmpty())
      ensures report ==> Flushed(encoded, pushed, taken) && reported == LastLabel(pushed, taken)
      ensures !report ==> reported == old(reported)
    {
      ghost var k := taken;
      i := Dequeue();
      report := Buffer(i, k);
    }

    method TakeForward() returns (i: Item, report: bool)
      requires Valid() && hasStatistics && queue != [] && !buffering
      modifies this`queue, this`taken, this`queuedRecords, this`queuedBatches
      modifies this`encoded, this`steps, this`reported, this`mark
      ensures Valid() && taken == old(taken) + 1 && i == pushed[taken - 1] && (report <==> i.processed.Some?)
      ensures encoded == if i.data.Some? then old(encoded) + [Data(i)] else old(encoded)
      ensures steps == if i.data.Some? then old(steps) + [i.step] else old(steps)
      ensures report ==> Flushed(encoded, pushed, taken) && reported == LastLabel(pushed, taken)
      ensures !report ==> reported == old(reported)
    {
      ghost var k := taken;
      i := Dequeue();
      report := Forward(i, k);
    }

    /** One iteration of the thread's loop: flushes the buffer if that is due, or else takes one batch
        from the queue. A report means that the encoder has the net content of everything taken from
        the queue so far; it is lower than what was reported before exactly when it is the first and no
        label has reached the initial count. */
    method Turn(expired: bool) returns (report: bool)
      requires Valid() && hasStatistics
      modifies this`queue, this`taken, this`queuedRecords, this`queuedBatches
      modifies this`encoded, this`steps, this`reported, this`mark, buffer
      ensures Valid()
      ensures old(buffer.buffer).Some? && (old(buffer.buffer).value.len >= maxRecords || expired) ==>
                && taken == old(taken) && queue == old(queue) && report && buffer.buffer.None?
                && encoded == old(encoded) + [old(buffer.buffer).value]
                && taken > 0 && steps == old(steps) + [pushed[taken - 1].step]
      ensures old(buffer.buffer).None? || (old(buffer.buffer).value.len < maxRecords && !expired) ==>
                if old(queue) == [] then Stays(report, old(taken), old(encoded), old(steps), old(buffer.buffer))
                else Takes(report, old(taken), old(encoded), old(steps), old(buffer.buffer))
      ensures report ==> Flushed(encoded, pushed, taken) && reported == LastLabel(pushed, taken)
      ensures !report ==> reported == old(reported)
      ensures reported < old(reported) <==>
              report && old(mark).None? && initial > 0 && OnlyEarlyLabels(pushed, taken, early, initial)
    {
      report := false;
      if buffer.FlushNeeded(maxRecords, expired) {
        ReportOrder(encoded, pushed, early, taken, mark, reported, initial, buffering, taken);
        Flush();
        report := true;
      } else if queue != [] {
        report := TakeInOrder();
      }
    }

    method TakeInOrder() returns (report: bool)
      requires Valid() && hasStatistics && queue != []
      modifies this`queue, this`taken, this`queuedRecords, this`queuedBatches
      modifies this`encoded, this`steps, this`reported, this`mark, buffer
      ensures Valid() && taken == old(taken) + 1
      ensures Moved(pushed[taken - 1], report, old(encoded), old(steps), old(buffer.Held()))
      ensures report ==> Flushed(encoded, pushed, taken) && reported == LastLabel(pushed, taken)
      ensures !report ==> reported == old(reported)
      ensures reported < old(reported) <==>
              report && old(mark).None? && initial > 0 && OnlyEarlyLabels(pushed, taken, early, initial)
    {
      ReportOrder(encoded, pushed, early, taken, mark, reported, initial, buffering, taken + 1);
      var i;
      i, report := Take();
    }
  }

  /** A buffered endpoint created during a transaction reports 0, below where it started. */
  method ReportBeforeAnyLabel(initial: nat, maxRecords: nat) returns (t: OutputThread)
    requires initial > 0
    ensures fresh(t) && t.Valid() && t.initial == initial && t.early == 0 && t.reported == 0
  {
    t := StartThenPush(Item(1, None, None), initial, maxRecords);
    var report := t.Turn(false);
    assert report && t.taken == 1;
  }

  method StartThenPush(i: Item, initial: nat, maxRecords: nat) returns (t: OutputThread)
    requires LabelFits([], true, initial, i)
    ensures fresh(t) && fresh(t.buffer) && t.Valid() && t.buffering && t.hasStatistics && t.initial == initial
    ensures t.buffer.buffer.None? && t.pushed == t.queue == [i] && t.early == 0 && t.taken == 0
  {
    t := new OutputThread(true, maxRecords);
    t.AddStatistics(initial);
    t.Push(i);
  }

  /** The gauge of an endpoint created during a transaction falls below zero with its first entry. */
  method GaugeBelowZero(initial: nat) returns (t: OutputThread)
    ensures fresh(t) && t.Valid() && t.early == 0 && t.queue == [] && t.queuedBatches == -1
  {
    t := new OutputThread(false, 0);
    t.AddStatistics(initial);
    t.Push(Item(1, None, None));
    var _, _ := t.Take();
  }

  /** An endpoint that gets a batch between its registration and its statistics has both gauges below
      zero once it has sent the batch, and reports less than it started from. */
  method EarlyPush(r: Row) returns (t: OutputThread)
    ensures fresh(t) && t.Valid() && !t.buffering && t.queue == []
    ensures t.queuedRecords == -1 && t.queuedBatches == -1 && t.reported < t.initial
  {
    var i := Item(1, Some([Batch(1, row => if row == r then 1 else 0)]), Some(5));
    t := PushThenStart(i, 7);
    EarlyGauges(i);
    var _, report := t.Take();
    assert report && t.reported == 5;
  }

  method PushThenStart(i: Item, initial: nat) returns (t: OutputThread)
    ensures fresh(t) && fresh(t.buffer) && t.Valid() && !t.buffering && t.hasStatistics && t.initial == initial
    ensures t.pushed == t.queue == [i] && t.early == 1 && t.taken == 0
  {
    t := new OutputThread(false, 0);
    t.Push(i);
    t.AddStatistics(initial);
  }

  lemma EarlyGauges(i: Item)
    requires i.data.Some? && |i.data.value| == 1 && i.data.value[0].len == 1
    ensures Data(i).len == 1 && RecordsIn([i], 1) == 1 && BatchesIn([i], 1) == 1
  {
    assert Flat(i.data.value, 0).len == 0;
  }
}
