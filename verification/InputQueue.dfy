/** The queue in which an input connector stages parsed buffers, and from which it feeds the circuit.
    The reference behaviour is `Effects`: what processing a sequence of entries whole, in order, does
    to the consumer. Everything the queue ever does is a prefix of the effects of everything pushed. */
module InputQueue {
  import opened Common

  type Record(==, !new)

  datatype BufferSize = BufferSize(records: nat, bytes: nat)
  {
    predicate IsEmpty() { records == 0 && bytes == 0 }
  }

  function Empty(): BufferSize { BufferSize(0, 0) }

  datatype Buffer = Buffer(updates: seq<Record>, bytes: nat)
  {
    function Len(): BufferSize { BufferSize(|updates|, bytes) }
  }

  /** `mul * num / denom`, rounded down. */
  function Fraction(num: nat, denom: nat, mul: nat): (r: nat)
    requires num <= denom
    ensures r <= mul
    ensures 0 < num == denom ==> r == mul
    ensures if denom == 0 then r == 0 else r * denom <= num * mul < (r + 1) * denom
  {
    if denom == 0 then 0
    else
      FractionBounds(num, denom, mul);
      num * mul / denom
  }

  lemma FractionBounds(num: nat, denom: nat, mul: nat)
    requires num <= denom && denom != 0
    ensures 0 <= num * mul / denom <= mul
    ensures num == denom ==> num * mul / denom == mul
    ensures num * mul / denom * denom <= num * mul < (num * mul / denom + 1) * denom
  {
    Multiply(num, denom, mul);
    QuotientBounds(num * mul, denom);
    QuotientAtMost(num * mul, denom, mul, num * mul / denom);
  }

  lemma QuotientBounds(x: nat, d: nat)
    requires d != 0
    ensures x / d * d <= x < (x / d + 1) * d
  {
    assert x == d * (x / d) + x % d;
  }

  lemma QuotientAtMost(x: nat, d: nat, mul: nat, q: int)
    requires d != 0 && x <= d * mul && q * d <= x < (q + 1) * d
    ensures q <= mul && (x == d * mul ==> q == mul) && 0 <= q
  {
    if q > mul {
      Multiply(mul + 1, q, d);
    } else if q < 0 {
      Multiply(0, -q - 1, d);
    } else if q < mul {
      Multiply(q + 1, mul, d);
    }
  }

  /** `r` is the share `num / denom` of `mul`, rounded down. */
  predicate IsShare(r: nat, num: nat, denom: nat, mul: nat)
  {
    r * denom <= num * mul < (r + 1) * denom
  }

  lemma Multiply(a: nat, b: nat, c: nat)
    requires a <= b
    ensures a * c <= b * c && c * a <= c * b
  {
    assert (b - a) * c >= 0;
  }

  /** Splits off the first `n` records with their share of the bytes; bytes are conserved, and
      the last record takes all the bytes that are left. */
  method TakeSome(b: Buffer, n: nat) returns (head: Option<Buffer>, tail: Buffer)
    ensures head.None? <==> b.updates == []
    ensures head.None? ==> tail == b
    ensures head.Some? ==>
              && head.value.updates + tail.updates == b.updates
              && |head.value.updates| == Min(n, |b.updates|)
              && head.value.bytes + tail.bytes == b.bytes
              && (tail.updates == [] ==> tail.bytes == 0)
              && IsShare(head.value.bytes, Min(n, |b.updates|), |b.updates|, b.bytes)
  {
    if b.updates == [] {
      return None, b;
    }
    var k := Min(n, |b.updates|);
    var share := Fraction(k, |b.updates|, b.bytes);
    return Some(Buffer(b.updates[..k], share)), Buffer(b.updates[k..], b.bytes - share);
  }

  /** `start` and `commit` are the transaction marks carried by the entry. */
  datatype Entry<A> = Entry(
    buffer: Option<Buffer>, timestamp: int, start: Option<Option<string>>, commit: bool, aux: A)
  {
    function Updates(): seq<Record> { if buffer.Some? then buffer.value.updates else [] }

    function Len(): BufferSize { if buffer.Some? then buffer.value.Len() else Empty() }

    /** Bytes but no record: `take_some` cannot take anything from it, yet it is not empty. */
    predicate IsResidue() { buffer.Some? && buffer.value.updates == [] && buffer.value.bytes > 0 }
  }

  /** Takes up to `room` records from an entry; `tail` is what must be put back, if anything. */
  method Cut<A>(e: Entry<A>, room: nat) returns (taken: BufferSize, head: seq<Record>, tail: Option<Buffer>)
    requires room > 0
    ensures taken.records <= room
    ensures tail.None? ==> taken == e.Len() && !e.IsResidue()
    ensures tail.Some? ==>
              && head + tail.value.updates == e.Updates()
              && taken.records + tail.value.Len().records == e.Len().records
              && taken.bytes + tail.value.Len().bytes == e.Len().bytes
              && if e.IsResidue() then tail == e.buffer && taken.records == 0 else taken.records == room
  {
    taken, head, tail := Empty(), [], None;
    if e.buffer.Some? {
      var front, back := TakeSome(e.buffer.value, room);
      if front.Some? {
        taken, head := front.value.Len(), front.value.updates;
      }
      if !back.Len().IsEmpty() {
        tail := Some(back);
      }
    }
  }

  /** What reaches the consumer, in order. */
  datatype Effect = Flush(r: Record) | StartTx(tag: Option<string>) | CommitTx

  function Flushes(rs: seq<Record>): seq<Effect>
  {
    seq(|rs|, i requires 0 <= i < |rs| => Flush(rs[i]))
  }

  predicate OpenAfter<A>(e: Entry<A>, open: bool) { (open || e.start.Some?) && !e.commit }

  predicate Commits<A>(e: Entry<A>, open: bool) { (open || e.start.Some?) && e.commit }

  function EntryEffects<A>(e: Entry<A>, open: bool): seq<Effect>
  {
    (if e.start.Some? && !open then [StartTx(e.start.value)] else [])
    + Flushes(e.Updates())
    + (if Commits(e, open) then [CommitTx] else [])
  }

  predicate OpenAfterAll<A>(es: seq<Entry<A>>, open: bool)
  {
    if es == [] then open else OpenAfterAll(es[1..], OpenAfter(es[0], open))
  }

  /** Process all of `es` in order, starting inside a transaction iff `open`. */
  function Effects<A>(es: seq<Entry<A>>, open: bool): seq<Effect>
  {
    if es == [] then [] else EntryEffects(es[0], open) + Effects(es[1..], OpenAfter(es[0], open))
  }

  function SizeOf<A>(es: seq<Entry<A>>): BufferSize
  {
    if es == [] then Empty()
    else
      var len, rest := es[0].Len(), SizeOf(es[1..]);
      BufferSize(len.records + rest.records, len.bytes + rest.bytes)
  }

  function UpdatesOf<A>(es: seq<Entry<A>>): seq<Record>
  {
    if es == [] then [] else es[0].Updates() + UpdatesOf(es[1..])
  }

  lemma {:induction false} OpenAppend<A>(a: seq<Entry<A>>, b: seq<Entry<A>>, open: bool)
    ensures OpenAfterAll(a + b, open) == OpenAfterAll(b, OpenAfterAll(a, open))
  {
    if a == [] {
      assert a + b == b;
    } else {
      assert (a + b)[1..] == a[1..] + b;
      OpenAppend(a[1..], b, OpenAfter(a[0], open));
    }
  }

  lemma {:induction false} EffectsAppend<A>(a: seq<Entry<A>>, b: seq<Entry<A>>, open: bool)
    ensures Effects(a + b, open) == Effects(a, open) + Effects(b, OpenAfterAll(a, open))
  {
    if a == [] {
      assert a + b == b;
    } else {
      var o := OpenAfter(a[0], open);
      EffectsAppend(a[1..], b, o);
      EffectsCons(a, b, open);
      Assoc(EntryEffects(a[0], open), Effects(a[1..], o), Effects(b, OpenAfterAll(a[1..], o)));
    }
  }

  lemma EffectsCons<A>(a: seq<Entry<A>>, b: seq<Entry<A>>, open: bool)
    requires a != []
    ensures Effects(a + b, open) == EntryEffects(a[0], open) + Effects(a[1..] + b, OpenAfter(a[0], open))
  {
    assert (a + b)[0] == a[0] && (a + b)[1..] == a[1..] + b;
  }

  lemma {:induction false} SizeAppend<A>(a: seq<Entry<A>>, b: seq<Entry<A>>)
    ensures SizeOf(a + b) == BufferSize(SizeOf(a).records + SizeOf(b).records, SizeOf(a).bytes + SizeOf(b).bytes)
  {
    if a == [] {
      assert a + b == b;
    } else {
      var ab := a + b;
      assert ab[0] == a[0] && ab[1..] == a[1..] + b;
      SizeAppend(a[1..], b);
    }
  }

  lemma {:induction false} UpdatesAppend<A>(a: seq<Entry<A>>, b: seq<Entry<A>>)
    ensures UpdatesOf(a + b) == UpdatesOf(a) + UpdatesOf(b)
  {
    if a == [] {
      assert a + b == b;
    } else {
      calc {
        UpdatesOf(a + b);
        { assert (a + b)[0] == a[0] && (a + b)[1..] == a[1..] + b; }
        a[0].Updates() + UpdatesOf(a[1..] + b);
        { UpdatesAppend(a[1..], b); }
        a[0].Updates() + (UpdatesOf(a[1..]) + UpdatesOf(b));
        { Assoc(a[0].Updates(), UpdatesOf(a[1..]), UpdatesOf(b)); }
        UpdatesOf(a) + UpdatesOf(b);
      }
    }
  }

  lemma EffectsSnoc<A>(es: seq<Entry<A>>, e: Entry<A>, open: bool)
    ensures OpenAfterAll(es + [e], open) == OpenAfter(e, OpenAfterAll(es, open))
    ensures Effects(es + [e], open) == Effects(es, open) + EntryEffects(e, OpenAfterAll(es, open))
  {
    EffectsAppend(es, [e], open);
    OpenAppend(es, [e], open);
    var o := OpenAfterAll(es, open);
    assert [e][1..] == [];
    assert Effects([e], o) == EntryEffects(e, o) + [];
  }

  lemma SizeSnoc<A>(es: seq<Entry<A>>, e: Entry<A>)
    ensures SizeOf(es + [e]) == BufferSize(SizeOf(es).records + e.Len().records, SizeOf(es).bytes + e.Len().bytes)
    ensures UpdatesOf(es + [e]) == UpdatesOf(es) + e.Updates()
  {
    SizeAppend(es, [e]);
    UpdatesAppend(es, [e]);
    assert [e][1..] == [];
    assert UpdatesOf([e]) == e.Updates() + [];
  }

  // ---------------------------------------------------------------- what the effects mean

  /** An entry first starts a transaction, under its own tag, if it asks for one and none is open; then
      it flushes its records in order; then it commits, if it asks to and a transaction is open. */
  lemma EntryShape<A>(e: Entry<A>, open: bool)
    ensures
      var fx, rs := EntryEffects(e, open), e.Updates();
      var starts, commits := !open && e.start.Some?, e.commit && (open || e.start.Some?);
      var from := if starts then 1 else 0;
      && |fx| == from + |rs| + (if commits then 1 else 0)
      && (starts ==> fx[0] == StartTx(e.start.value))
      && (forall k | 0 <= k < |rs| :: fx[from + k] == Flush(rs[k]))
      && (commits ==> fx[|fx| - 1] == CommitTx)
  {
  }

  /** A transaction is open after `es` exactly if one was open or some entry asked for one, and no
      entry from there on carries a commit mark. */
  lemma {:induction false} OpenMeans<A>(es: seq<Entry<A>>, open: bool)
    ensures OpenAfterAll(es, open)
      <==> || (open && forall k | 0 <= k < |es| :: !es[k].commit)
           || exists i | 0 <= i < |es| :: es[i].start.Some? && forall k | i <= k < |es| :: !es[k].commit
  {
    if es != [] {
      var e, rest := es[0], es[1..];
      OpenMeans(rest, OpenAfter(e, open));
      assert forall k | 0 <= k < |rest| :: rest[k] == es[k + 1];
      forall i | 1 <= i < |es| ensures es[i] == rest[i - 1] {}
      assert (forall k | 0 <= k < |es| :: !es[k].commit)
        <==> !e.commit && forall k | 0 <= k < |rest| :: !rest[k].commit;
    }
  }

  /** The records among `xs`. */
  function Flushed(xs: seq<Effect>): seq<Record>
  {
    if xs == [] then [] else (if xs[0].Flush? then [xs[0].r] else []) + Flushed(xs[1..])
  }

  lemma {:induction false} FlushedAppend(a: seq<Effect>, b: seq<Effect>)
    ensures Flushed(a + b) == Flushed(a) + Flushed(b)
  {
    if a == [] {
      assert a + b == b;
    } else {
      assert (a + b)[1..] == a[1..] + b;
      FlushedAppend(a[1..], b);
      Assoc(if a[0].Flush? then [a[0].r] else [], Flushed(a[1..]), Flushed(b));
    }
  }

  lemma {:induction false} FlushedFlushes(rs: seq<Record>)
    ensures Flushed(Flushes(rs)) == rs
  {
    if rs != [] {
      assert Flushes(rs)[1..] == Flushes(rs[1..]);
      FlushedFlushes(rs[1..]);
    }
  }

  lemma EntryFlushes<A>(e: Entry<A>, open: bool)
    ensures Flushed(EntryEffects(e, open)) == e.Updates()
  {
    var s, c := StartOf(e, open), if Commits(e, open) then [CommitTx] else [];
    FlushedAppend(s + Flushes(e.Updates()), c);
    FlushedAppend(s, Flushes(e.Updates()));
    FlushedFlushes(e.Updates());
    assert Flushed(s) == [] && Flushed(c) == [];
  }

  /** However the entries are marked, exactly their records are flushed, in order. */
  lemma {:induction false} EffectsFlush<A>(es: seq<Entry<A>>, open: bool)
    ensures Flushed(Effects(es, open)) == UpdatesOf(es)
    ensures SizeOf(es).records == |UpdatesOf(es)|
  {
    if es != [] {
      var o := OpenAfter(es[0], open);
      EffectsFlush(es[1..], o);
      EntryFlushes(es[0], open);
      FlushedAppend(EntryEffects(es[0], open), Effects(es[1..], o));
    }
  }

  // ---------------------------------------------------------------- consumer calls

  /** The transaction calls among `xs`. */
  function Calls(xs: seq<Effect>): seq<Effect>
  {
    if xs == [] then [] else (if xs[0].Flush? then [] else [xs[0]]) + Calls(xs[1..])
  }

  /** Number of records flushed among `xs`. */
  function FlushCount(xs: seq<Effect>): nat
  {
    if xs == [] then 0 else (if xs[0].Flush? then 1 else 0) + FlushCount(xs[1..])
  }

  lemma {:induction false} FlushesAndCalls(xs: seq<Effect>)
    ensures FlushCount(xs) + |Calls(xs)| == |xs|
  {
    if xs != [] {
      FlushesAndCalls(xs[1..]);
    }
  }

  /** Starts and commits strictly alternate, the first being a start iff no transaction is open. */
  predicate Alternates(cs: seq<Effect>, open: bool)
  {
    cs == [] || ((if open then cs[0].CommitTx? else cs[0].StartTx?) && Alternates(cs[1..], !open))
  }

  lemma {:induction false} CallsAppend(a: seq<Effect>, b: seq<Effect>)
    ensures Calls(a + b) == Calls(a) + Calls(b)
  {
    if a == [] {
      assert a + b == b;
    } else {
      assert (a + b)[1..] == a[1..] + b;
      CallsAppend(a[1..], b);
      Assoc(if a[0].Flush? then [] else [a[0]], Calls(a[1..]), Calls(b));
    }
  }

  lemma CallsOfFlushes(rs: seq<Record>)
    ensures Calls(Flushes(rs)) == []
  {
    if rs != [] {
      assert Flushes(rs)[1..] == Flushes(rs[1..]);
      CallsOfFlushes(rs[1..]);
    }
  }

  function EntryCalls<A>(e: Entry<A>, open: bool): seq<Effect>
  {
    (if e.start.Some? && !open then [StartTx(e.start.value)] else []) + (if Commits(e, open) then [CommitTx] else [])
  }

  lemma CallsOfEntry<A>(e: Entry<A>, open: bool)
    ensures Calls(EntryEffects(e, open)) == EntryCalls(e, open)
    ensures |EntryEffects(e, open)| == |Calls(EntryEffects(e, open))| + e.Len().records
  {
    var s := if e.start.Some? && !open then [StartTx(e.start.value)] else [];
    var c := if Commits(e, open) then [CommitTx] else [];
    CallsAppend(s + Flushes(e.Updates()), c);
    CallsAppend(s, Flushes(e.Updates()));
    CallsOfFlushes(e.Updates());
  }

  lemma AlternatesAppend(a: seq<Effect>, b: seq<Effect>, open: bool)
    requires Alternates(a + b, open)
    ensures Alternates(a, open)
  {
    if a != [] {
      assert (a + b)[1..] == a[1..] + b;
      AlternatesAppend(a[1..], b, !open);
    }
  }

  lemma EntryAlternates<A>(e: Entry<A>, open: bool, rest: seq<Effect>)
    requires Alternates(rest, OpenAfter(e, open))
    ensures Alternates(EntryCalls(e, open) + rest, open)
  {
    var s := if e.start.Some? && !open then [StartTx(e.start.value)] else [];
    var c := if Commits(e, open) then [CommitTx] else [];
    var later := c + rest;
    Assoc(s, c, rest);
    assert c == [] ==> later == rest;
    assert c != [] ==> later[1..] == rest;
    assert Alternates(later, open || e.start.Some?);
    assert s == [] ==> s + later == later;
    assert s != [] ==> (s + later)[1..] == later;
  }

  lemma {:induction false} EffectsAlternate<A>(es: seq<Entry<A>>, open: bool)
    ensures Alternates(Calls(Effects(es, open)), open)
  {
    if es != [] {
      var e, rest := es[0], Effects(es[1..], OpenAfter(es[0], open));
      CallsAppend(EntryEffects(e, open), rest);
      CallsOfEntry(e, open);
      EffectsAlternate(es[1..], OpenAfter(e, open));
      EntryAlternates(e, open, Calls(rest));
    }
  }

  /** Whatever has been pushed and however it was cut into batches, the consumer sees starts and
      commits strictly alternating from the first start on. */
  lemma StartsAndCommitsAlternate<A>(
      effects: seq<Effect>, queue: seq<Entry<A>>, open: bool, pushed: seq<Entry<A>>)
    requires effects + Effects(queue, open) == Effects(pushed, false)
    ensures Alternates(Calls(effects), false)
  {
    EffectsAlternate(pushed, false);
    CallsAppend(effects, Effects(queue, open));
    AlternatesAppend(Calls(effects), Calls(Effects(queue, open)), false);
  }

  // ---------------------------------------------------------------- the queue

  /** How many entries are still to be pushed by other threads, from lock acquisition `k` on. */
  function Coming<A>(arrivals: seq<seq<Entry<A>>>, k: nat): nat
    decreases |arrivals| - k
  {
    if k >= |arrivals| then 0 else |arrivals[k]| + Coming(arrivals, k + 1)
  }

  /** Some entry of `es` successfully commits a transaction. */
  predicate AnyCommit<A>(es: seq<Entry<A>>, open: bool)
  {
    es != [] &&
    var init := es[..|es| - 1];
    AnyCommit(init, open) || Commits(es[|es| - 1], OpenAfterAll(init, open))
  }

  predicate AnyStop<A>(es: seq<Entry<A>>, stopAt: A -> bool)
  {
    es != [] && (AnyStop(es[..|es| - 1], stopAt) || stopAt(es[|es| - 1].aux))
  }

  function AuxOf<A>(es: seq<Entry<A>>): seq<(int, A)>
  {
    if es == [] then []
    else
      var e := es[|es| - 1];
      AuxOf(es[..|es| - 1]) + [(e.timestamp, e.aux)]
  }

  /** A legal batch: an entry follows only entries whose aux does not satisfy `stopAt`, and one that
      carries records follows only entries short of the limit and without a successful commit. */
  predicate LegalBatch<A>(es: seq<Entry<A>>, open: bool, n: nat, stopAt: A -> bool)
  {
    es == [] ||
    var init := es[..|es| - 1];
    && LegalBatch(init, open, n, stopAt)
    && !AnyStop(init, stopAt)
    && (es[|es| - 1].buffer.Some? ==> SizeOf(init).records < n && !AnyCommit(init, open))
  }

  lemma {:induction false} AnyStopMeans<A>(es: seq<Entry<A>>, stopAt: A -> bool)
    ensures AnyStop(es, stopAt) <==> exists k | 0 <= k < |es| :: stopAt(es[k].aux)
  {
    if es != [] {
      AnyStopMeans(es[..|es| - 1], stopAt);
    }
  }

  lemma {:induction false} AnyCommitMeans<A>(es: seq<Entry<A>>, open: bool)
    ensures AnyCommit(es, open) <==> exists k | 0 <= k < |es| :: Commits(es[k], OpenAfterAll(es[..k], open))
  {
    if es != [] {
      var init := es[..|es| - 1];
      AnyCommitMeans(init, open);
      assert forall k | 0 <= k < |init| :: init[..k] == es[..k] && init[k] == es[k];
    }
  }

  lemma {:induction false} AuxMeans<A>(es: seq<Entry<A>>)
    ensures |AuxOf(es)| == |es|
    ensures forall k | 0 <= k < |es| :: AuxOf(es)[k] == (es[k].timestamp, es[k].aux)
  {
    if es != [] {
      AuxMeans(es[..|es| - 1]);
    }
  }

  /** A batch is legal exactly if every entry in it could follow those before it. */
  lemma {:induction false} LegalMeans<A>(es: seq<Entry<A>>, open: bool, n: nat, stopAt: A -> bool)
    ensures LegalBatch(es, open, n, stopAt)
      <==> forall k | 0 <= k < |es| :: CanFollow(es[..k], es[k], open, n, stopAt)
  {
    if es != [] {
      var init := es[..|es| - 1];
      LegalMeans(init, open, n, stopAt);
      assert forall k | 0 <= k < |init| :: init[..k] == es[..k] && init[k] == es[k];
      AnyStopMeans(init, stopAt);
      AnyCommitMeans(init, open);
    }
  }

  /** There are more than `from` entries, the last of which successfully commits a transaction. */
  ghost predicate EndsInCommit<A>(es: seq<Entry<A>>, from: nat, open: bool)
  {
    from < |es| && Commits(es[|es| - 1], OpenAfterAll(es[..|es| - 1], open))
  }

  /** `es` is `first` followed by entries without a buffer. */
  ghost predicate Extends<A>(first: seq<Entry<A>>, es: seq<Entry<A>>)
  {
    first <= es && forall k | |first| <= k < |es| :: es[k].buffer.None?
  }

  lemma ExtendsOne<A>(es: seq<Entry<A>>, e: Entry<A>)
    ensures Extends(es, es) && (e.buffer.None? ==> Extends(es, es + [e]))
  {
  }

  lemma ExtendsTransitive<A>(a: seq<Entry<A>>, b: seq<Entry<A>>, c: seq<Entry<A>>)
    requires Extends(a, b) && Extends(b, c)
    ensures Extends(a, c)
  {
  }

  /** Enough for the first half of `flush_with_aux_until`. */
  ghost predicate FirstHalfDone<A>(es: seq<Entry<A>>, open: bool, n: nat, stopAt: A -> bool)
  {
    AnyStop(es, stopAt) || AnyCommit(es, open) || SizeOf(es).records >= n
  }

  ghost predicate CanFollow<A>(before: seq<Entry<A>>, e: Entry<A>, open: bool, n: nat, stopAt: A -> bool)
  {
    && (forall j | 0 <= j < |before| :: !stopAt(before[j].aux))
    && (e.buffer.Some? ==>
          && SizeOf(before).records < n
          && forall j | 0 <= j < |before| :: !Commits(before[j], OpenAfterAll(before[..j], open)))
  }

  /** What `flush_with_aux_until` has accumulated. */
  datatype Batch<A> = Batch(total: BufferSize, hashed: seq<Record>, aux: seq<(int, A)>)
  {
    function Plus(e: Entry<A>): Batch<A>
    {
      Batch(BufferSize(total.records + e.Len().records, total.bytes + e.Len().bytes),
            hashed + e.Updates(), aux + [(e.timestamp, e.aux)])
    }
  }

  /** `b` is exactly the sizes, records and aux data of `es`. */
  predicate Sums<A(==)>(b: Batch<A>, es: seq<Entry<A>>)
  {
    b.total == SizeOf(es) && b.hashed == UpdatesOf(es) && b.aux == AuxOf(es)
  }

  /** One timestamp and aux value per entry, in order. */
  ghost predicate AuxInOrder<A>(aux: seq<(int, A)>, es: seq<Entry<A>>)
  {
    |aux| == |es| && forall k | 0 <= k < |es| :: aux[k] == (es[k].timestamp, es[k].aux)
  }

  lemma SumsMean<A>(b: Batch<A>, es: seq<Entry<A>>)
    requires Sums(b, es)
    ensures b.total.records == |b.hashed| && AuxInOrder(b.aux, es)
  {
    AuxMeans(es);
    EffectsFlush(es, false);
  }

  lemma SumsSnoc<A>(b: Batch<A>, es: seq<Entry<A>>, e: Entry<A>)
    requires Sums(b, es)
    ensures Sums(b.Plus(e), es + [e])
  {
    SizeSnoc(es, e);
    assert (es + [e])[..|es|] == es;
  }

  lemma BatchSnoc<A>(es: seq<Entry<A>>, e: Entry<A>, open: bool, n: nat, stopAt: A -> bool)
    requires LegalBatch(es, open, n, stopAt) && !AnyStop(es, stopAt)
    requires e.buffer.Some? ==> SizeOf(es).records < n && !AnyCommit(es, open)
    ensures LegalBatch(es + [e], open, n, stopAt)
    ensures AnyStop(es + [e], stopAt) == stopAt(e.aux)
    ensures AnyCommit(es + [e], open) == (AnyCommit(es, open) || Commits(e, OpenAfterAll(es, open)))
  {
    assert (es + [e])[..|es|] == es;
  }

  /** Where the queue stood when a call began, and what has come and gone since. */
  datatype History<A> = History(
    queue: seq<Entry<A>>, pushed: seq<Entry<A>>, effects: seq<Effect>, open: bool,
    arrived: seq<Entry<A>>, consumed: seq<Entry<A>>)
  {
    ghost predicate Explains(
        queue': seq<Entry<A>>, pushed': seq<Entry<A>>, effects': seq<Effect>, open': bool)
    {
      && pushed' == pushed + arrived
      && queue + arrived == consumed + queue'
      && effects' == effects + Effects(consumed, open)
      && open' == OpenAfterAll(consumed, open)
    }

    lemma Arrival(q: seq<Entry<A>>, p: seq<Entry<A>>, fx: seq<Effect>, o: bool, es: seq<Entry<A>>)
      requires Explains(q, p, fx, o)
      ensures this.(arrived := arrived + es).Explains(q + es, p + es, fx, o)
    {
      Assoc(pushed, arrived, es);
      Assoc(queue, arrived, es);
      Assoc(consumed, q, es);
    }

    lemma Consumption(q: seq<Entry<A>>, p: seq<Entry<A>>, fx: seq<Effect>, o: bool)
      requires Explains(q, p, fx, o) && q != []
      ensures this.(consumed := consumed + [q[0]])
                  .Explains(q[1..], p, fx + EntryEffects(q[0], o), OpenAfter(q[0], o))
    {
      assert consumed + q == (consumed + [q[0]]) + q[1..];
      EffectsSnoc(consumed, q[0], open);
      Assoc(effects, Effects(consumed, open), EntryEffects(q[0], o));
    }
  }

  /** How `queue()` disposed of a front entry. */
  datatype Outcome = Whole | Ended | Split

  /** Why one round of `queue()` ended. */
  datatype StopReason = Limit | Drained | CommitMark | Blocked

  /** The transaction calls that one round of `queue()` may issue, given whether a transaction is
      open before and after: a start, then a commit, each at most once. */
  predicate RoundCalls(cs: seq<Effect>, before: bool, after: bool)
  {
    || (cs == [] && before == after)
    || (|cs| == 1 && cs[0].StartTx? && !before && after)
    || (|cs| == 1 && cs[0].CommitTx? && before && !after)
    || (|cs| == 2 && cs[0].StartTx? && cs[1].CommitTx? && !before && !after)
  }

  /** Done so far, followed by what processing the rest would do, is what processing everything
      ever pushed would do: nothing is lost, repeated or reordered, and no commit overtakes a
      record of its own entry. */
  ghost predicate Conserved<A>(effects: seq<Effect>, queue: seq<Entry<A>>, open: bool, pushed: seq<Entry<A>>)
  {
    && effects + Effects(queue, open) == Effects(pushed, false)
    && OpenAfterAll(queue, open) == OpenAfterAll(pushed, false)
  }

  lemma PushConserves<A>(
      effects: seq<Effect>, queue: seq<Entry<A>>, open: bool, pushed: seq<Entry<A>>, es: seq<Entry<A>>)
    requires Conserved(effects, queue, open, pushed)
    ensures Conserved(effects, queue + es, open, pushed + es)
  {
    EffectsAppend(queue, es, open);
    EffectsAppend(pushed, es, false);
    OpenAppend(queue, es, open);
    OpenAppend(pushed, es, false);
    Assoc(effects, Effects(queue, open), Effects(es, OpenAfterAll(queue, open)));
  }

  lemma ConsumeConserves<A>(effects: seq<Effect>, queue: seq<Entry<A>>, open: bool, pushed: seq<Entry<A>>)
    requires Conserved(effects, queue, open, pushed) && queue != []
    ensures Conserved(effects + EntryEffects(queue[0], open), queue[1..], OpenAfter(queue[0], open), pushed)
  {
    Assoc(effects, EntryEffects(queue[0], open), Effects(queue[1..], OpenAfter(queue[0], open)));
  }

  /** What is put back at the front after `head` has been taken from the buffer of `e`. */
  function Rest<A>(e: Entry<A>, tail: Buffer): Entry<A>
  {
    Entry(Some(tail), e.timestamp, None, e.commit, e.aux)
  }

  function StartOf<A>(e: Entry<A>, open: bool): seq<Effect>
  {
    if e.start.Some? && !open then [StartTx(e.start.value)] else []
  }

  lemma EntrySplits<A>(e: Entry<A>, open: bool, head: seq<Record>, tail: Buffer)
    requires head + tail.updates == e.Updates()
    ensures (StartOf(e, open) + Flushes(head)) + EntryEffects(Rest(e, tail), open || e.start.Some?)
            == EntryEffects(e, open)
  {
    var s, c := StartOf(e, open), if Commits(e, open) then [CommitTx] else [];
    var a, b := Flushes(head), Flushes(tail.updates);
    assert Flushes(e.Updates()) == a + b;
    assert EntryEffects(Rest(e, tail), open || e.start.Some?) == [] + b + c;
    assert [] + b + c == b + c;
    Assoc(s + a, b, c);
    Assoc(s, a, b);
  }

  lemma SplitConserves<A>(
      effects: seq<Effect>, queue: seq<Entry<A>>, open: bool, pushed: seq<Entry<A>>, head: seq<Record>, tail: Buffer)
    requires Conserved(effects, queue, open, pushed) && queue != []
    requires head + tail.updates == queue[0].Updates()
    ensures Conserved(effects + (StartOf(queue[0], open) + Flushes(head)),
                      [Rest(queue[0], tail)] + queue[1..], open || queue[0].start.Some?, pushed)
  {
    var e, o := queue[0], open || queue[0].start.Some?;
    var r := Rest(e, tail);
    var done := StartOf(e, open) + Flushes(head);
    var later := Effects(queue[1..], OpenAfter(e, open));
    assert ([r] + queue[1..])[1..] == queue[1..];
    EntrySplits(e, open, head, tail);
    Assoc(done, EntryEffects(r, o), later);
    Assoc(effects, done, Effects([r] + queue[1..], o));
  }

  ghost predicate Balanced(buffered: BufferSize, extended: BufferSize, pending: BufferSize, queued: BufferSize)
  {
    && buffered.records == extended.records + pending.records + queued.records
    && buffered.bytes == extended.bytes + pending.bytes + queued.bytes
  }

  /** Before its end, a round has issued at most a start. */
  predicate OpenRound(cs: seq<Effect>, before: bool, now: bool)
  {
    RoundCalls(cs, before, now) && (cs == [] || (|cs| == 1 && cs[0].StartTx?))
  }

  /** The transaction calls made for a front entry, and whether a transaction is open afterwards. */
  predicate FrontCalls<A>(e: Entry<A>, open: bool, outcome: Outcome, cs: seq<Effect>, after: bool)
  {
    match outcome
    case Split => cs == StartOf(e, open) && after == (open || e.start.Some?)
    case _ => cs == EntryCalls(e, open) && after == OpenAfter(e, open) && (outcome == Ended <==> e.commit)
  }

  lemma ExtendRound<A>(
      cs: seq<Effect>, before: bool, open: bool, e: Entry<A>, outcome: Outcome, ds: seq<Effect>, after: bool)
    requires OpenRound(cs, before, open) && FrontCalls(e, open, outcome, ds, after)
    ensures RoundCalls(cs + ds, before, after)
    ensures outcome == Ended ==> !after
    ensures outcome == Whole ==> OpenRound(cs + ds, before, after)
  {
    assert cs == [] ==> cs + ds == ds;
    assert ds == [] ==> cs + ds == cs;
  }

  lemma PrefixOfRest(a: seq<Effect>, done: seq<Effect>, later: seq<Effect>, all: seq<Effect>, fx: seq<Effect>)
    requires a <= fx && done == fx[|a|..] && fx + later == a + all
    ensures done <= all
  {
    assert fx == a + done;
    assert (a + all)[|a|..] == all && (a + done + later)[|a|..] == done + later;
  }

  /** The effects of a round so far: as many flushes as records, and calls that fit. */
  ghost predicate RoundOk(done: seq<Effect>, records: nat, ended: bool, before: bool, now: bool)
  {
    && |done| == |Calls(done)| + records
    && RoundCalls(Calls(done), before, now)
    && (!ended ==> OpenRound(Calls(done), before, now))
  }

  lemma RoundNext<A>(
      done: seq<Effect>, records: nat, before: bool, open: bool, e: Entry<A>, outcome: Outcome, d: seq<Effect>,
      taken: nat, after: bool)
    requires RoundOk(done, records, false, before, open)
    requires FrontCalls(e, open, outcome, Calls(d), after) && |d| == |Calls(d)| + taken
    ensures RoundOk(done + d, records + taken, outcome != Whole, before, after)
    ensures outcome == Ended ==> !after
  {
    CallsAppend(done, d);
    ExtendRound(Calls(done), before, open, e, outcome, Calls(d), after);
  }

  lemma SuffixGrows(first: seq<Effect>, fx: seq<Effect>, d: seq<Effect>)
    requires first <= fx
    ensures first <= fx + d && (fx + d)[|first|..] == fx[|first|..] + d
  {
  }

  predicate StoppedFor<A>(why: StopReason, records: nat, n: nat, queue: seq<Entry<A>>, open: bool)
  {
    match why
    case Limit => records == n
    case Drained => queue == []
    case CommitMark => !open
    case Blocked => queue != [] && queue[0].IsResidue()
  }

  /** What one pass of `queue()` did with `queue`, having flushed `records` records before and
      `records'` after, and whether it ended the round. */
  ghost predicate Passed<A>(
      queue: seq<Entry<A>>, queue': seq<Entry<A>>, records: nat, records': nat, n: nat, stop: Option<StopReason>)
  {
    if queue == [] then stop == Some(Drained) && queue' == [] && records' == records
    else if queue[0].IsResidue() then stop == Some(Blocked) && records' == records
    else if stop == Some(Limit) then records' == n <= records + queue[0].Len().records
    else
      && stop == (if queue[0].commit then Some(CommitMark) else None)
      && queue' == queue[1..] && records' == records + queue[0].Len().records
  }

  function RecordsUpTo<A>(es: seq<Entry<A>>, k: nat): nat
    requires k <= |es|
  {
    if k == 0 then 0 else RecordsUpTo(es, k - 1) + es[k - 1].Len().records
  }

  /** The records that a round without a limit could flush: those up to the first commit mark, or to
      the first entry that blocks. */
  function Available<A>(es: seq<Entry<A>>, k: nat): nat
    requires k <= |es|
    decreases |es| - k
  {
    if k == |es| || es[k].IsResidue() then 0
    else es[k].Len().records + if es[k].commit then 0 else Available(es, k + 1)
  }

  ghost predicate Plain<A>(es: seq<Entry<A>>, k: nat)
    requires k <= |es|
  {
    forall j | 0 <= j < k :: !es[j].IsResidue() && !es[j].commit
  }

  /** `all` is everything that was in the queue during the round so far, of which the first `whole`
      entries have been taken whole. */
  ghost predicate Reached<A>(
      all: seq<Entry<A>>, whole: nat, queue: seq<Entry<A>>, records: nat, n: nat, stop: Option<StopReason>)
  {
    && whole <= |all| && records <= n
    && match stop
       case None => Plain(all, whole) && queue == all[whole..] && records == RecordsUpTo(all, whole)
       case Some(CommitMark) =>
         && 0 < whole && Plain(all, whole - 1) && all[whole - 1].commit && !all[whole - 1].IsResidue()
         && queue == all[whole..] && records == RecordsUpTo(all, whole)
       case Some(Drained) => Plain(all, whole) && whole == |all| && queue == [] && records == RecordsUpTo(all, whole)
       case Some(Blocked) =>
         Plain(all, whole) && whole < |all| && all[whole].IsResidue() && records == RecordsUpTo(all, whole)
       case Some(Limit) =>
         && Plain(all, whole) && whole < |all| && !all[whole].IsResidue()
         && records == n <= RecordsUpTo(all, whole) + all[whole].Len().records
  }

  lemma {:induction false} RecordsUpToAppend<A>(es: seq<Entry<A>>, more: seq<Entry<A>>, k: nat)
    requires k <= |es|
    ensures RecordsUpTo(es + more, k) == RecordsUpTo(es, k)
  {
    if k > 0 {
      RecordsUpToAppend(es, more, k - 1);
    }
  }

  lemma ReachedArrival<A>(
      all: seq<Entry<A>>, whole: nat, queue: seq<Entry<A>>, records: nat, n: nat, es: seq<Entry<A>>)
    requires Reached(all, whole, queue, records, n, None)
    ensures Reached(all + es, whole, queue + es, records, n, None)
  {
    RecordsUpToAppend(all, es, whole);
    assert (all + es)[whole..] == all[whole..] + es;
  }

  lemma ReachedNext<A>(
      all: seq<Entry<A>>, whole: nat, queue: seq<Entry<A>>, records: nat, n: nat,
      queue': seq<Entry<A>>, records': nat, stop: Option<StopReason>)
    returns (whole': nat)
    requires Reached(all, whole, queue, records, n, None) && records' <= n
    requires Passed(queue, queue', records, records', n, stop)
    ensures Reached(all, whole', queue', records', n, stop)
  {
    whole' := whole;
    if queue != [] {
      assert queue[0] == all[whole];
      if !queue[0].IsResidue() && stop != Some(Limit) {
        whole' := whole + 1;
        assert queue[1..] == all[whole + 1..];
      }
    }
  }

  lemma {:induction false} AvailablePlain<A>(all: seq<Entry<A>>, k: nat, whole: nat)
    requires k <= whole <= |all| && Plain(all, whole)
    ensures Available(all, k) + RecordsUpTo(all, k) == Available(all, whole) + RecordsUpTo(all, whole)
    decreases whole - k
  {
    if k < whole {
      AvailablePlain(all, k + 1, whole);
    }
  }

  /** A round that has ended flushed as many records as it could. */
  lemma ReachedAll<A>(
      all: seq<Entry<A>>, whole: nat, queue: seq<Entry<A>>, records: nat, n: nat, stop: Option<StopReason>)
    requires Reached(all, whole, queue, records, n, stop) && (stop.None? ==> records == n)
    ensures records == Min(n, Available(all, 0))
    ensures stop == Some(CommitMark) ==> 0 < whole && all[whole - 1].commit
    ensures Plain(all, |all|) ==> records == n || queue == []
    ensures n > 0 && all != [] && all[0].IsResidue() ==> stop == Some(Blocked) && records == 0
  {
    AvailablePlain(all, 0, if stop == Some(CommitMark) then whole - 1 else whole);
  }

  class InputQueue<A(!new)> {
    var queue: seq<Entry<A>>
    var inTransaction: bool

    // What the consumer has seen.
    var effects: seq<Effect>
    var buffered: BufferSize
    var extended: BufferSize

    // Everything ever pushed, in order.
    ghost var pushed: seq<Entry<A>>

    ghost predicate Valid()
      reads this
    {
      Conserved(effects, queue, inTransaction, pushed)
    }

    /** Reported as buffered, minus reported as flushed, is what is queued (plus `pending`). */
    ghost predicate Accounted(pending: BufferSize)
      reads this
    {
      Balanced(buffered, extended, pending, SizeOf(queue))
    }

    constructor ()
      ensures Valid() && Accounted(Empty()) && queue == [] && effects == [] && extended == Empty()
    {
      queue, inTransaction, effects := [], false, [];
      buffered, extended, pushed := Empty(), Empty(), [];
    }

    method PushEntry(e: Entry<A>, ghost pending: BufferSize)
      requires Valid() && Accounted(pending)
      modifies this`queue, this`buffered, this`pushed
      ensures Valid() && Accounted(pending)
      ensures queue == old(queue) + [e] && pushed == old(pushed) + [e]
    {
      PushConserves(effects, queue, inTransaction, pushed, [e]);
      SizeSnoc(queue, e);
      queue := queue + [e];
      buffered := BufferSize(buffered.records + e.Len().records, buffered.bytes + e.Len().bytes);
      pushed := pushed + [e];
    }

    ghost predicate Tracks(h: History<A>)
      reads this
    {
      h.Explains(queue, pushed, effects, inTransaction)
    }

    ghost function Now(): (h: History<A>)
      reads this
      ensures Tracks(h)
    {
      History(queue, pushed, effects, inTransaction, [], [])
    }

    /** The other threads get the lock first and push `es`. */
    method Arrive(es: seq<Entry<A>>, ghost pending: BufferSize, ghost h: History<A>)
      requires Valid() && Accounted(pending) && Tracks(h)
      modifies this`queue, this`buffered, this`pushed
      ensures Valid() && Accounted(pending) && Tracks(h.(arrived := h.arrived + es))
      ensures queue == old(queue) + es && pushed == old(pushed) + es
    {
      h.Arrival(queue, pushed, effects, inTransaction, es);
      for i := 0 to |es|
        invariant Valid() && Accounted(pending)
        invariant queue == old(queue) + es[..i] && pushed == old(pushed) + es[..i]
      {
        assert es[..i + 1] == es[..i] + [es[i]];
        Assoc(old(queue), es[..i], [es[i]]);
        Assoc(old(pushed), es[..i], [es[i]]);
        PushEntry(es[i], pending);
      }
      assert es[..|es|] == es;
    }

    /** Pops and fully processes the front entry. */
    method Consume(ghost pending: BufferSize, ghost h: History<A>) returns (e: Entry<A>, committed: bool)
      requires Valid() && Accounted(pending) && Tracks(h) && queue != []
      modifies this`queue, this`inTransaction, this`effects
      ensures e == old(queue[0]) && queue == old(queue[1..])
      ensures Valid() && Accounted(BufferSize(pending.records + e.Len().records, pending.bytes + e.Len().bytes))
              && Tracks(h.(consumed := h.consumed + [e]))
      ensures committed == Commits(e, old(inTransaction))
      ensures inTransaction == OpenAfter(e, old(inTransaction))
      ensures effects == old(effects) + EntryEffects(e, old(inTransaction))
    {
      ConsumeConserves(effects, queue, inTransaction, pushed);
      h.Consumption(queue, pushed, effects, inTransaction);
      e := queue[0];
      queue := queue[1..];
      var started, flushed, ended := [], [], [];
      if e.start.Some? && !inTransaction {
        inTransaction := true;
        started := [StartTx(e.start.value)];
      }
      assert Flushes([]) == [];
      if e.buffer.Some? {
        flushed := Flushes(e.buffer.value.updates);
      }
      committed := e.commit && inTransaction;
      if committed {
        inTransaction := false;
        ended := [CommitTx];
      }
      var fx := started + flushed + ended;
      assert fx == EntryEffects(e, old(inTransaction));
      effects := effects + fx;
    }

    /** Partway through `flush_with_aux_until`: `b` reports exactly the entries consumed since the
        call began, and they form a legal batch. */
    ghost predicate Flushing(b: Batch<A>, h: History<A>, n: nat, stopAt: A -> bool)
      reads this
    {
      && Valid() && Accounted(b.total) && Tracks(h)
      && Sums(b, h.consumed) && LegalBatch(h.consumed, h.open, n, stopAt)
    }

    /** Other threads push `es`; then, if `full` or if the front entry has no buffer, the front entry
        is popped, processed and added to the batch. */
    method FlushNext(
        full: bool, es: seq<Entry<A>>, b: Batch<A>, ghost n: nat, stopAt: A -> bool, ghost h: History<A>)
      returns (popped: bool, b': Batch<A>, stop: bool, committed: bool, ghost h': History<A>)
      requires Flushing(b, h, n, stopAt) && !AnyStop(h.consumed, stopAt)
      requires full ==> b.total.records < n && !AnyCommit(h.consumed, h.open)
      modifies this`queue, this`inTransaction, this`effects, this`buffered, this`pushed
      ensures Flushing(b', h', n, stopAt)
      ensures h'.(arrived := h.arrived, consumed := h.consumed) == h
      ensures popped ==> |queue| + 1 == |old(queue)| + |es| && (!full ==> b'.total == b.total)
      ensures !popped ==> queue == old(queue) + es && (queue == [] || (!full && queue[0].buffer.Some?))
      ensures !popped ==> b' == b && h'.consumed == h.consumed && !committed
      ensures stop == AnyStop(h'.consumed, stopAt)
      ensures AnyCommit(h'.consumed, h.open) == (AnyCommit(h.consumed, h.open) || committed)
      ensures h'.arrived == h.arrived + es
      ensures !full ==> Extends(h.consumed, h'.consumed)
      ensures committed ==> EndsInCommit(h'.consumed, |h.consumed|, h.open)
    {
      Arrive(es, b.total, h);
      h' := h.(arrived := h.arrived + es);
      popped, b', stop, committed, h' := PopNext(full, b, n, stopAt, h');
    }

    method PopNext(full: bool, b: Batch<A>, ghost n: nat, stopAt: A -> bool, ghost h: History<A>)
      returns (popped: bool, b': Batch<A>, stop: bool, committed: bool, ghost h': History<A>)
      requires Flushing(b, h, n, stopAt) && !AnyStop(h.consumed, stopAt)
      requires full ==> b.total.records < n && !AnyCommit(h.consumed, h.open)
      modifies this`queue, this`inTransaction, this`effects
      ensures Flushing(b', h', n, stopAt) && h'.(consumed := h.consumed) == h
      ensures popped ==> |queue| + 1 == |old(queue)| && (!full ==> b'.total == b.total)
      ensures !popped ==> queue == old(queue) && (queue == [] || (!full && queue[0].buffer.Some?))
      ensures !popped ==> b' == b && h' == h && !committed
      ensures stop == AnyStop(h'.consumed, stopAt)
      ensures AnyCommit(h'.consumed, h.open) == (AnyCommit(h.consumed, h.open) || committed)
      ensures !full ==> Extends(h.consumed, h'.consumed)
      ensures committed ==> EndsInCommit(h'.consumed, |h.consumed|, h.open)
    {
      popped := queue != [] && (full || queue[0].buffer.None?);
      b', stop, committed, h' := b, false, false, h;
      if popped {
        ExtendsOne(h.consumed, queue[0]);
        b', stop, committed, h' := FlushFront(b, n, stopAt, h);
      }
    }

    /** Pops and processes the front entry, and adds it to the batch. */
    method FlushFront(b: Batch<A>, ghost n: nat, stopAt: A -> bool, ghost h: History<A>)
      returns (b': Batch<A>, stop: bool, committed: bool, ghost h': History<A>)
      requires Flushing(b, h, n, stopAt) && !AnyStop(h.consumed, stopAt) && queue != []
      requires queue[0].buffer.Some? ==> b.total.records < n && !AnyCommit(h.consumed, h.open)
      modifies this`queue, this`inTransaction, this`effects
      ensures Flushing(b', h', n, stopAt) && queue == old(queue[1..])
      ensures h' == h.(consumed := h.consumed + [old(queue[0])]) && b' == b.Plus(old(queue[0]))
      ensures stop == AnyStop(h'.consumed, stopAt)
      ensures AnyCommit(h'.consumed, h.open) == (AnyCommit(h.consumed, h.open) || committed)
      ensures committed ==> EndsInCommit(h'.consumed, |h.consumed|, h.open)
    {
      SumsSnoc(b, h.consumed, queue[0]);
      BatchSnoc(h.consumed, queue[0], h.open, n, stopAt);
      var e;
      e, committed := Consume(b.total, h);
      h' := h.(consumed := h.consumed + [e]);
      b' := b.Plus(e);
      stop := stopAt(e.aux);
    }

    /** First half of `flush_with_aux_until`: whole entries until the limit `n` is met, `stopAt`
        holds, a transaction commits or the queue is found empty. `arrivals[k]` is what other
        threads push just before the `k`th time this method takes the lock. */
    method FlushEntries(n: nat, stopAt: A -> bool, arrivals: seq<seq<Entry<A>>>)
      returns (b: Batch<A>, stop: bool, ghost h: History<A>)
      requires Valid() && Accounted(Empty())
      modifies this`queue, this`inTransaction, this`effects, this`buffered, this`pushed
      ensures Flushing(b, h, n, stopAt) && h.(arrived := [], consumed := []) == old(Now())
      ensures stop == AnyStop(h.consumed, stopAt)
      ensures stop || AnyCommit(h.consumed, h.open) || b.total.records >= n || queue == []
      ensures FirstHalfDone(h.consumed, h.open, n, stopAt) || h.queue + h.arrived == h.consumed
    {
      b, h := Batch(Empty(), [], []), Now();
      stop := false;
      var committed, more, k := false, true, 0;
      while !stop && !committed && more && b.total.records < n
        invariant Flushing(b, h, n, stopAt) && h.(arrived := [], consumed := []) == old(Now())
        invariant stop == AnyStop(h.consumed, stopAt)
        invariant committed == AnyCommit(h.consumed, h.open)
        invariant !more ==> queue == []
        decreases more, Coming(arrivals, k) + |queue|
      {
        var es := if k < |arrivals| then arrivals[k] else [];
        k := k + 1;
        more, b, stop, committed, h := FlushNext(true, es, b, n, stopAt, h);
      }
    }

    /** Second half of `flush_with_aux_until`: entries with aux data only. The lock is held throughout. */
    method FlushAuxOnly(b: Batch<A>, stop: bool, ghost n: nat, stopAt: A -> bool, ghost h: History<A>)
      returns (b': Batch<A>, ghost h': History<A>)
      requires Flushing(b, h, n, stopAt) && stop == AnyStop(h.consumed, stopAt)
      modifies this`queue, this`inTransaction, this`effects, this`buffered, this`pushed
      ensures Flushing(b', h', n, stopAt) && h'.(consumed := h.consumed) == h && b'.total == b.total
      ensures Extends(h.consumed, h'.consumed) && (old(queue) == [] ==> queue == [])
      ensures AnyCommit(h.consumed, h.open) ==> AnyCommit(h'.consumed, h.open)
      ensures AnyStop(h.consumed, stopAt) ==> AnyStop(h'.consumed, stopAt)
      ensures || AnyStop(h'.consumed, stopAt) || queue == [] || queue[0].buffer.Some?
              || EndsInCommit(h'.consumed, |h.consumed|, h.open)
    {
      b', h' := b, h;
      var found, committed, more := stop, false, true;
      while !found && !committed && more
        invariant Flushing(b', h', n, stopAt) && h'.(consumed := h.consumed) == h && b'.total == b.total
        invariant found == AnyStop(h'.consumed, stopAt) && (stop ==> found)
        invariant AnyCommit(h.consumed, h.open) ==> AnyCommit(h'.consumed, h.open)
        invariant committed ==> EndsInCommit(h'.consumed, |h.consumed|, h.open)
        invariant !more ==> queue == [] || queue[0].buffer.Some?
        invariant Extends(h.consumed, h'.consumed) && (old(queue) == [] ==> queue == [])
        decreases more, |queue|
      {
        ghost var g := h';
        more, b', found, committed, h' := FlushNext(false, [], b', n, stopAt, h');
        assert g.arrived + [] == g.arrived;
        ExtendsTransitive(h.consumed, g.consumed, h'.consumed);
      }
    }

    /** `flush_with_aux_until`: the entries it flushes, hashes and reports are exactly a prefix of
        the queue, whatever is pushed meanwhile (`late` just before the second half takes the lock).
        Neither half ends sooner than it must: the entries in `first` reach the limit, the stop or a
        commit unless they are all there was, and the rest, which have no buffer, reach the stop or a
        commit unless an entry with a buffer, or nothing, is left. */
    method FlushWithAuxUntil(
        n: nat, stopAt: A -> bool, arrivals: seq<seq<Entry<A>>>, late: seq<Entry<A>>)
      returns (b: Batch<A>, ghost h: History<A>, ghost first: seq<Entry<A>>)
      requires Valid() && Accounted(Empty())
      modifies this`queue, this`inTransaction, this`effects, this`buffered, this`pushed
      ensures Flushing(b, h, n, stopAt) && h.(arrived := [], consumed := []) == old(Now())
      ensures !AnyCommit(h.consumed, h.open) && !AnyStop(h.consumed, stopAt) ==>
                queue == [] || (queue[0].buffer.Some? && (late == [] ==> b.total.records >= n))
      ensures b.total.records == |b.hashed| && AuxInOrder(b.aux, h.consumed)
      ensures Extends(first, h.consumed)
      ensures FirstHalfDone(first, h.open, n, stopAt) || h.queue + h.arrived == first + late
      ensures || AnyStop(h.consumed, stopAt) || queue == [] || queue[0].buffer.Some?
              || EndsInCommit(h.consumed, |first|, h.open)
    {
      var stop;
      b, stop, h := FlushEntries(n, stopAt, arrivals);
      first := h.consumed;
      Arrive(late, b.total, h);
      Assoc(h.queue, h.arrived, late);
      h := h.(arrived := h.arrived + late);
      b, h := FlushAuxOnly(b, stop, n, stopAt, h);
      SumsMean(b, h.consumed);
    }

    /** Feeds `head`, the first records of the front entry, to the circuit and puts the rest,
        `tail`, back at the front. The rest no longer asks for a transaction start. */
    method SplitFront(head: seq<Record>, tail: Buffer, ghost taken: BufferSize, ghost pending: BufferSize)
      returns (ghost done: seq<Effect>)
      requires Valid() && Accounted(pending) && queue != []
      requires head + tail.updates == queue[0].Updates()
      requires taken.records + |tail.updates| == queue[0].Len().records
      requires taken.bytes + tail.bytes == queue[0].Len().bytes
      modifies this`queue, this`inTransaction, this`effects
      ensures Valid() && Accounted(BufferSize(pending.records + taken.records, pending.bytes + taken.bytes))
              && effects == old(effects) + done
      ensures queue == [Rest(old(queue[0]), tail)] + old(queue[1..])
      ensures inTransaction == (old(inTransaction) || old(queue[0]).start.Some?)
      ensures Calls(done) == StartOf(old(queue[0]), old(inTransaction)) && |done| == |Calls(done)| + |head|
    {
      var e := queue[0];
      SplitConserves(effects, queue, inTransaction, pushed, head, tail);
      done := StartOf(e, inTransaction) + Flushes(head);
      CallsAppend(StartOf(e, inTransaction), Flushes(head));
      CallsOfFlushes(head);
      assert done[..|StartOf(e, inTransaction)|] == StartOf(e, inTransaction);
      var started := [];
      queue := queue[1..];
      if e.start.Some? && !inTransaction {
        inTransaction := true;
        started := [StartTx(e.start.value)];
      }
      effects := effects + (started + Flushes(head));
      queue := [Rest(e, tail)] + queue;
      assert queue[1..] == old(queue[1..]);
    }

    /** Takes the front entry whole. */
    method TakeWhole(ghost pending: BufferSize) returns (outcome: Outcome, ghost done: seq<Effect>)
      requires Valid() && Accounted(pending) && queue != []
      modifies this`queue, this`inTransaction, this`effects
      ensures var len := old(queue[0]).Len();
              Valid() && Accounted(BufferSize(pending.records + len.records, pending.bytes + len.bytes))
      ensures outcome != Split && queue == old(queue[1..]) && effects == old(effects) + done
      ensures FrontCalls(old(queue[0]), old(inTransaction), outcome, Calls(done), inTransaction)
      ensures |done| == |Calls(done)| + old(queue[0]).Len().records
    {
      CallsOfEntry(queue[0], inTransaction);
      done := EntryEffects(queue[0], inTransaction);
      var e, _ := Consume(pending, Now());
      outcome := if e.commit then Ended else Whole;
    }

    /** One iteration of `queue()`: takes at most `room` records from the front entry. */
    method TakeFront(room: nat, ghost pending: BufferSize)
      returns (taken: BufferSize, outcome: Outcome, ghost done: seq<Effect>)
      requires Valid() && Accounted(pending) && queue != [] && room > 0
      modifies this`queue, this`inTransaction, this`effects
      ensures Valid() && Accounted(BufferSize(pending.records + taken.records, pending.bytes + taken.bytes))
              && effects == old(effects) + done
      ensures taken.records <= room
      ensures outcome == Split ==>
                |queue| == |old(queue)| &&
                if old(queue[0]).IsResidue() then queue[0].IsResidue() && taken.records == 0
                else taken.records == room
      ensures taken.records <= old(queue[0]).Len().records
      ensures outcome != Split ==>
                queue == old(queue[1..]) && !old(queue[0]).IsResidue() && taken == old(queue[0]).Len()
      ensures FrontCalls(old(queue[0]), old(inTransaction), outcome, Calls(done), inTransaction)
      ensures |done| == |Calls(done)| + taken.records
    {
      var e := queue[0];
      var head, tail;
      taken, head, tail := Cut(e, room);
      if tail.Some? {
        done := SplitFront(head, tail.value, taken, pending);
        outcome := Split;
      } else {
        outcome, done := TakeWhole(pending);
      }
    }

    /** Partway through a round of `queue()` that began when the consumer had seen `first`. */
    ghost predicate InRound(total: BufferSize, stop: Option<StopReason>, done: seq<Effect>, n: nat, before: bool,
                            first: seq<Effect>)
      reads this
    {
      && Valid() && Accounted(total) && total.records <= n
      && first <= effects && done == effects[|first|..]
      && RoundOk(done, total.records, stop.Some?, before, inTransaction)
      && (stop.Some? ==> StoppedFor(stop.value, total.records, n, queue, inTransaction))
    }

    /** Takes what it can from the front entry; `stop` says why the round must end, if it must. */
    method QueueFront(
        n: nat, total: BufferSize, ghost done: seq<Effect>, ghost before: bool, ghost first: seq<Effect>)
      returns (total': BufferSize, stop: Option<StopReason>, ghost done': seq<Effect>)
      requires InRound(total, None, done, n, before, first) && total.records < n && queue != []
      modifies this`queue, this`inTransaction, this`effects
      ensures InRound(total', stop, done', n, before, first)
      ensures Passed(old(queue), queue, total.records, total'.records, n, stop)
    {
      var taken, outcome; ghost var d;
      ghost var e, open := queue[0], inTransaction;
      taken, outcome, d := TakeFront(n - total.records, total);
      RoundNext(done, total.records, before, open, e, outcome, d, taken.records, inTransaction);
      SuffixGrows(first, old(effects), d);
      done' := done + d;
      total' := BufferSize(total.records + taken.records, total.bytes + taken.bytes);
      match outcome {
        case Whole => stop := None;
        case Split => stop := Some(if total'.records == n then Limit else Blocked);
        case Ended => stop := Some(CommitMark);
      }
    }

    /** One pass of the loop of `queue()`. */
    method QueueNext(
        es: seq<Entry<A>>, n: nat, total: BufferSize, ghost done: seq<Effect>, ghost before: bool,
        ghost first: seq<Effect>)
      returns (total': BufferSize, stop: Option<StopReason>, ghost done': seq<Effect>)
      requires InRound(total, None, done, n, before, first) && total.records < n
      modifies this`queue, this`inTransaction, this`effects, this`buffered, this`pushed
      ensures InRound(total', stop, done', n, before, first)
      ensures pushed == old(pushed) + es
      ensures Passed(old(queue) + es, queue, total.records, total'.records, n, stop)
      ensures stop.None? ==> |queue| < |old(queue)| + |es|
    {
      Arrive(es, total, Now());
      if queue == [] {
        return total, Some(Drained), done;
      }
      total', stop, done' := QueueFront(n, total, done, before, first);
    }

    /** The loop of `queue()`. `arrived` is what other threads have pushed meanwhile. */
    method QueueRound(n: nat, arrivals: seq<seq<Entry<A>>>)
      returns (total: BufferSize, stop: Option<StopReason>, ghost done: seq<Effect>,
               ghost arrived: seq<Entry<A>>, ghost whole: nat)
      requires Valid() && Accounted(Empty())
      modifies this`queue, this`inTransaction, this`effects, this`buffered, this`pushed
      ensures InRound(total, stop, done, n, old(inTransaction), old(effects))
      ensures pushed == old(pushed) + arrived
      ensures Reached(old(queue) + arrived, whole, queue, total.records, n, stop)
      ensures stop.None? ==> total.records == n
    {
      total, done, arrived, whole := Empty(), [], [], 0;
      var k := 0;
      stop := None;
      while stop.None? && total.records < n
        invariant InRound(total, stop, done, n, old(inTransaction), old(effects))
        invariant pushed == old(pushed) + arrived
        invariant Reached(old(queue) + arrived, whole, queue, total.records, n, stop)
        decreases stop.None?, Coming(arrivals, k) + |queue|
      {
        ghost var q, records := queue, total.records;
        var es := if k < |arrivals| then arrivals[k] else [];
        k := k + 1;
        total, stop, done := QueueNext(es, n, total, done, old(inTransaction), old(effects));
        Assoc(old(pushed), arrived, es);
        Assoc(old(queue), arrived, es);
        ReachedArrival(old(queue) + arrived, whole, q, records, n, es);
        arrived := arrived + es;
        whole := ReachedNext(old(queue) + arrived, whole, q + es, records, n, queue, total.records, stop);
      }
    }

    /** `queue()` for connectors whose entries carry no aux data: flushes at most `n` records, taking
        part of an entry if need be, and reports them. `arrivals[k]` is what other threads push just
        before the `k`th time this method takes the lock. An entry with bytes but no record, once at
        the front, stays there and blocks the queue.

        `all` is everything that was in the queue during the round, and `whole` how many of these
        entries were taken whole. The round ends early only after an entry with a commit mark. */
    method Queue(n: nat, arrivals: seq<seq<Entry<A>>>)
      returns (total: BufferSize, why: StopReason, ghost done: seq<Effect>, ghost all: seq<Entry<A>>, ghost whole: nat)
      requires Valid() && Accounted(Empty())
      modifies this
      ensures Valid() && Accounted(Empty())
      ensures old(effects) <= effects && done == effects[|old(effects)|..]
      ensures extended.records == old(extended).records + total.records
      ensures extended.bytes == old(extended).bytes + total.bytes
      ensures FlushCount(done) == total.records <= n
      ensures RoundCalls(Calls(done), old(inTransaction), inTransaction)
      ensures StoppedFor(why, total.records, n, queue, inTransaction)
      ensures n > 0 && old(queue) != [] && old(queue[0]).IsResidue() ==> why == Blocked && total.records == 0
      ensures old(queue) <= all && pushed == old(pushed) + all[|old(queue)|..]
      ensures done <= Effects(all, old(inTransaction))
      ensures total.records == Min(n, Available(all, 0))
      ensures why == CommitMark ==> 0 < whole <= |all| && all[whole - 1].commit && queue == all[whole..]
      ensures Plain(all, |all|) ==> total.records == n || queue == []
    {
      var stop; ghost var arrived;
      total, stop, done, arrived, whole := QueueRound(n, arrivals);
      all := old(queue) + arrived;
      FlushesAndCalls(done);
      ReachedAll(all, whole, queue, total.records, n, stop);
      PushConserves(old(effects), old(queue), old(inTransaction), old(pushed), arrived);
      PrefixOfRest(old(effects), done, Effects(queue, inTransaction), Effects(all, old(inTransaction)), effects);
      why := if stop.Some? then stop.value else Limit;
      extended := BufferSize(extended.records + total.records, extended.bytes + total.bytes);
    }
  }

  /** An entry with bytes but no records stops this round of `queue()` and the next. */
  method ResidueBlocks<A(!new)>(e: Entry<A>, n: nat) returns (q: InputQueue<A>)
    requires e.IsResidue() && n > 0
    ensures fresh(q) && q.Valid() && q.queue != [] && q.queue[0].IsResidue() && q.extended.records == 0
  {
    q := new InputQueue();
    q.PushEntry(e, Empty());
    var first, why, _, _, _ := q.Queue(n, []);
    assert why == Blocked;
    var second, again, _, _, _ := q.Queue(n, []);
    assert again == Blocked;
  }
}
