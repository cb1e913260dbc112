/** The registry of output endpoints, the routing of output batches to them, and which transactions
    an endpoint takes part in. */
module OutputEndpoints {
  import opened Common

  type Id = nat
  type Stream(==, !new)
  type Batch(==, !new)

  datatype Item = Item(step: nat, data: Option<Batch>, processed: Option<nat>)

  datatype Descr = Descr(stream: Stream, created: nat, queue: seq<Item>)

  // ---------------------------------------------------------------- the two indexes

  ghost predicate Agree(byId: map<Id, Descr>, byStream: map<Stream, set<Id>>)
  {
    && (forall a | a in byId :: byId[a].stream in byStream && a in byStream[byId[a].stream])
    && (forall s, a | s in byStream && a in byStream[s] :: a in byId && byId[a].stream == s)
  }

  function Enabled(count: map<Stream, int>, s: Stream): int
  {
    if s in count then count[s] else 0
  }

  function Members(byStream: map<Stream, set<Id>>, s: Stream): set<Id>
  {
    if s in byStream then byStream[s] else {}
  }

  ghost predicate Counted(count: map<Stream, int>, byStream: map<Stream, set<Id>>)
  {
    forall s :: Enabled(count, s) == |Members(byStream, s)|
  }

  /** An endpoint sits out the transaction that it was created in. */
  predicate Receives(created: nat, number: nat)
  {
    created != number
  }

  function ItemFor(d: Descr, step: nat, batches: Stream -> Batch, processed: Option<nat>, number: nat): Item
  {
    Item(step, if Receives(d.created, number) then Some(batches(d.stream)) else None, processed)
  }

  /** The registry after the endpoints `ids` have been given their item. */
  function Pushed(byId: map<Id, Descr>, ids: set<Id>, step: nat, batches: Stream -> Batch, processed: Option<nat>,
                  number: nat)
    : map<Id, Descr>
  {
    map a | a in byId ::
      if a in ids then byId[a].(queue := byId[a].queue + [ItemFor(byId[a], step, batches, processed, number)])
      else byId[a]
  }

  /** A description changes only by one more entry at the end of its queue, for the given step and with the
      given label; the entry has the batch unless the endpoint sits out. */
  ghost predicate Gains(d: Descr, d': Descr, step: nat, batch: Batch, processed: Option<nat>, sitsOut: bool)
  {
    && d'.stream == d.stream && d'.created == d.created
    && |d'.queue| == |d.queue| + 1 && d.queue <= d'.queue
    && var i := d'.queue[|d.queue|];
       i.step == step && i.processed == processed && i.data == if sitsOut then None else Some(batch)
  }

  lemma PushedGains(byId: map<Id, Descr>, step: nat, batches: Stream -> Batch, processed: Option<nat>, number: nat)
    ensures
      var after := Pushed(byId, byId.Keys, step, batches, processed, number);
      && after.Keys == byId.Keys
      && forall a | a in after ::
           Gains(byId[a], after[a], step, batches(after[a].stream), processed, after[a].created == number)
  {
  }

  lemma PushedOne(byId: map<Id, Descr>, ids: set<Id>, a: Id, step: nat, batches: Stream -> Batch,
                  processed: Option<nat>, number: nat)
    requires a in byId && a !in ids
    ensures Pushed(byId, ids + {a}, step, batches, processed, number)
            == Pushed(byId, ids, step, batches, processed, number)
               [a := byId[a].(queue := byId[a].queue + [ItemFor(byId[a], step, batches, processed, number)])]
    ensures a in Pushed(byId, ids, step, batches, processed, number)
    ensures Pushed(byId, ids, step, batches, processed, number)[a] == byId[a]
  {
  }

  class OutputEndpoints {
    var byId: map<Id, Descr>
    var byStream: map<Stream, set<Id>>
    var enableCount: map<Stream, int> // the accumulator's counter, one per stream
    var nextId: nat

    ghost predicate Valid()
      reads this
    {
      && Agree(byId, byStream)
      && Counted(enableCount, byStream)
      && forall a | a in byId :: a < nextId
    }

    constructor ()
      ensures Valid() && byId == map[]
    {
      byId, byStream, enableCount, nextId := map[], map[], map[], 0;
    }

    method Insert(stream: Stream, created: nat) returns (id: Id)
      requires Valid()
      modifies this
      ensures Valid() && id !in old(byId) && byId == old(byId)[id := Descr(stream, created, [])]
      ensures byStream == old(byStream)[stream := Members(old(byStream), stream) + {id}]
    {
      id := nextId;
      assert id !in byId;
      assert forall s | s in byStream :: id !in byStream[s];
      nextId := nextId + 1;
      enableCount := enableCount[stream := Enabled(enableCount, stream) + 1];
      byStream := byStream[stream := Members(byStream, stream) + {id}];
      byId := byId[id := Descr(stream, created, [])];
      assert id !in Members(old(byStream), stream);
      assert forall s | s != stream :: Members(byStream, s) == Members(old(byStream), s);
    }

    /** Removes an endpoint. The counter of its stream is never zero before it is decremented. */
    method Remove(id: Id) returns (removed: Option<Descr>)
      requires Valid()
      modifies this
      ensures Valid() && byId == old(byId) - {id} && nextId == old(nextId)
      ensures removed == if id in old(byId) then Some(old(byId)[id]) else None
      ensures forall s :: Members(byStream, s) == Members(old(byStream), s) - {id}
    {
      if id !in byId {
        assert forall s :: id !in Members(byStream, s);
        return None;
      }
      var d := byId[id];
      removed := Some(d);
      byId := byId - {id};
      var count := Enabled(enableCount, d.stream);
      assert count > 0;
      enableCount := enableCount[d.stream := count - 1];
      byStream := byStream[d.stream := byStream[d.stream] - {id}];
      assert forall s | s != d.stream :: Members(byStream, s) == Members(old(byStream), s);
      assert forall s | s != d.stream :: id !in Members(byStream, s);
    }

    /** Gives one endpoint its item; the last endpoint of a stream consumes the batch. */
    method PushEndpoint(a: Id, last: bool, delta: Option<Batch>, step: nat, processed: Option<nat>, number: nat)
      returns (rest: Option<Batch>)
      requires a in byId && delta.Some?
      modifies this`byId
      ensures !last ==> rest == delta
      ensures byId == old(byId)[a := old(byId)[a].(queue := old(byId)[a].queue
                + [Item(step, if Receives(old(byId)[a].created, number) then delta else None, processed)])]
    {
      rest := delta;
      var d, data := byId[a], None;
      if Receives(d.created, number) {
        data := delta;
        if last {
          rest := None;
        }
      }
      byId := byId[a := d.(queue := d.queue + [Item(step, data, processed)])];
    }

    /** Gives every endpoint of one stream its item; the last of them may consume the batch. */
    method PushStream(stream: Stream, step: nat, batches: Stream -> Batch, processed: Option<nat>, number: nat,
                      ghost before: map<Id, Descr>, ghost done: set<Id>)
      requires Agree(before, byStream) && stream in byStream && byStream[stream] !! done
      requires byId == Pushed(before, done, step, batches, processed, number)
      modifies this`byId
      ensures byId == Pushed(before, done + byStream[stream], step, batches, processed, number)
    {
      var delta := Some(batches(stream));
      var todo := byStream[stream];
      ghost var seen := done;
      while todo != {}
        invariant Remaining(done, byStream[stream], seen, todo)
        invariant byId == Pushed(before, seen, step, batches, processed, number)
        invariant todo != {} ==> delta == Some(batches(stream))
        decreases |todo|
      {
        var a :| a in todo;
        PushedOne(before, seen, a, step, batches, processed, number);
        OneFewer(done, byStream[stream], seen, todo, a);
        delta := PushEndpoint(a, |todo| == 1, delta, step, processed, number);
        todo, seen := todo - {a}, seen + {a};
      }
      assert seen == done + byStream[stream];
    }

    /** Visits the streams one after the other. */
    method PushStreams(step: nat, batches: Stream -> Batch, processed: Option<nat>, number: nat)
      requires Valid()
      modifies this`byId
      ensures byId == Pushed(old(byId), old(byId).Keys, step, batches, processed, number)
    {
      ghost var before, done := byId, {};
      var streams := byStream.Keys;
      assert byId == Pushed(before, {}, step, batches, processed, number);
      while streams != {}
        invariant streams <= byStream.Keys
        invariant forall a | a in before :: a in done <==> before[a].stream !in streams
        invariant done <= before.Keys
        invariant byId == Pushed(before, done, step, batches, processed, number)
        decreases |streams|
      {
        var s :| s in streams;
        PushStream(s, step, batches, processed, number, before, done);
        done := done + byStream[s];
        streams := streams - {s};
      }
      assert done == before.Keys;
    }

    /** Gives every endpoint exactly one item for the step, with its own stream's batch. */
    method PushOutput(step: nat, batches: Stream -> Batch, processed: Option<nat>, number: nat)
      requires Valid()
      modifies this`byId
      ensures Valid()
      ensures byId == Pushed(old(byId), old(byId).Keys, step, batches, processed, number)
      ensures byId.Keys == old(byId).Keys
      ensures forall a | a in byId ::
                Gains(old(byId)[a], byId[a], step, batches(byId[a].stream), processed, byId[a].created == number)
    {
      PushStreams(step, batches, processed, number);
      PushedGains(old(byId), step, batches, processed, number);
    }
  }

  /** Of the ids in `all`, those in `todo` are still to come; the others have joined `done` in `seen`. */
  ghost predicate Remaining(done: set<Id>, all: set<Id>, seen: set<Id>, todo: set<Id>)
  {
    todo <= all && todo !! seen && seen + todo == done + all
  }

  lemma OneFewer(done: set<Id>, all: set<Id>, seen: set<Id>, todo: set<Id>, a: Id)
    requires Remaining(done, all, seen, todo) && a in todo
    ensures Remaining(done, all, seen + {a}, todo - {a})
    ensures |todo| == 1 <==> todo - {a} == {}
  {
    if |todo| == 1 {
      OnlyOne(todo, a);
    }
  }

  lemma OnlyOne(s: set<Id>, a: Id)
    requires |s| == 1 && a in s
    ensures s - {a} == {}
  {
    assert |s - {a}| == 0;
  }

  // ---------------------------------------------------------------- whole transactions or nothing

  /** One endpoint's view of the pipeline: the transaction number, the number that the endpoint was
      created with once it is registered, and, for each push so far, the number it was made under and
      whether the endpoint received the batch. */
  datatype View = View(number: nat, created: Option<nat>, log: seq<(nat, bool)>)

  datatype Event =
    | NextTransaction
    | Push
    | Register(created: nat) // with a transaction number read now or earlier

  predicate CanStep(v: View, e: Event)
  {
    e.Register? ==> v.created.None? && e.created <= v.number
  }

  function Step(v: View, e: Event): View
    requires CanStep(v, e)
  {
    match e
    case NextTransaction => v.(number := v.number + 1)
    case Push => v.(log := v.log + [(v.number, v.created.Some? && Receives(v.created.value, v.number))])
    case Register(created) => v.(created := Some(created))
  }

  predicate IsRun(v: View, es: seq<Event>)
    decreases |es|
  {
    es == [] || (CanStep(v, es[0]) && IsRun(Step(v, es[0]), es[1..]))
  }

  function Run(v: View, es: seq<Event>): View
    requires IsRun(v, es)
    decreases |es|
  {
    if es == [] then v else Run(Step(v, es[0]), es[1..])
  }

  /** For each transaction number, the endpoint received all batches pushed under it or none. */
  ghost predicate WholeOrNothing(log: seq<(nat, bool)>)
  {
    forall i, j | 0 <= i < |log| && 0 <= j < |log| && log[i].0 == log[j].0 :: log[i].1 == log[j].1
  }

  /** Everything from transaction `from` on is received, and nothing before. */
  ghost predicate ReceivesFrom(v: View, from: nat)
  {
    && (v.created.Some? ==> v.created.value <= v.number)
    && (forall t | t >= v.number :: t >= from <==> v.created.Some? && Receives(v.created.value, t))
    && (forall i | 0 <= i < |v.log| :: v.log[i].0 <= v.number && (v.log[i].1 <==> v.log[i].0 >= from))
  }

  lemma {:induction false} KeepsReceiving(v: View, from: nat, es: seq<Event>)
    requires ReceivesFrom(v, from) && v.created.Some? && IsRun(v, es)
    ensures ReceivesFrom(Run(v, es), from)
    decreases |es|
  {
    if es != [] {
      KeepsReceiving(Step(v, es[0]), from, es[1..]);
    }
  }

  /** Before it is registered, an endpoint has received nothing. */
  ghost predicate Unregistered(v: View)
  {
    v.created.None? && forall i | 0 <= i < |v.log| :: v.log[i].0 <= v.number && !v.log[i].1
  }

  ghost predicate AlwaysWhole(v: View)
  {
    forall es | IsRun(v, es) :: WholeOrNothing(Run(v, es).log)
  }

  /** A registration leads to whole transactions in every future if and only if the transaction number
      that it read is still the current one or nothing has been pushed under the current one yet. */
  lemma WholeIff(v: View, created: nat)
    requires Unregistered(v) && created <= v.number
    ensures AlwaysWhole(Step(v, Register(created)))
            <==> created == v.number || forall i | 0 <= i < |v.log| :: v.log[i].0 != v.number
  {
    var w := Step(v, Register(created));
    if created == v.number || forall i | 0 <= i < |v.log| :: v.log[i].0 != v.number {
      var from := if created == v.number then v.number + 1 else v.number;
      assert ReceivesFrom(w, from);
      forall es | IsRun(w, es) ensures WholeOrNothing(Run(w, es).log) {
        KeepsReceiving(w, from, es);
      }
    } else {
      var i :| 0 <= i < |v.log| && v.log[i].0 == v.number;
      var u := Step(w, Push);
      assert IsRun(w, [Push]) && Run(w, [Push]) == u;
      assert u.log[i] == (v.number, false) && u.log[|v.log|] == (v.number, true);
    }
  }

  /** The number read when an endpoint is created is the current one when it is registered. */
  ghost predicate Atomic(v: View, es: seq<Event>)
    requires IsRun(v, es)
    decreases |es|
  {
    es == [] || ((es[0].Register? ==> es[0].created == v.number) && Atomic(Step(v, es[0]), es[1..]))
  }

  /** With atomic creation, every endpoint receives whole transactions in every run. */
  lemma {:induction false} AtomicCreationWhole(v: View, es: seq<Event>)
    requires Unregistered(v) && IsRun(v, es) && Atomic(v, es)
    ensures WholeOrNothing(Run(v, es).log)
    decreases |es|
  {
    if es != [] {
      if es[0].Register? {
        WholeIff(v, es[0].created);
        assert WholeOrNothing(Run(Step(v, es[0]), es[1..]).log);
      } else {
        AtomicCreationWhole(Step(v, es[0]), es[1..]);
      }
    }
  }

  /** An endpoint that reads the transaction number, waits while a transaction begins and pushes a
      batch, and only then is registered, receives the rest of that transaction. */
  lemma SplitTransaction()
    ensures
      var v, es := View(0, None, []), [NextTransaction, Push, Register(0), Push];
      IsRun(v, es) && Run(v, es).log == [(1, false), (1, true)] && !WholeOrNothing(Run(v, es).log)
  {
    var v0 := View(0, None, []);
    var v1 := Step(v0, NextTransaction);
    var v2 := Step(v1, Push);
    var v3 := Step(v2, Register(0));
    var v4 := Step(v3, Push);
    var es := [NextTransaction, Push, Register(0), Push];
    assert es[1..] == [Push, Register(0), Push] && es[1..][1..] == [Register(0), Push];
    assert es[1..][1..][1..] == [Push] && es[1..][1..][1..][1..] == [];
    assert IsRun(v3, [Push]) && Run(v3, [Push]) == v4;
    assert IsRun(v2, es[1..][1..]) && Run(v2, es[1..][1..]) == v4;
    assert IsRun(v1, es[1..]) && Run(v1, es[1..]) == v4;
    var log := v4.log;
    assert log == [(1, false), (1, true)];
    assert log[0].0 == log[1].0 && log[0].1 != log[1].1;
  }
}
