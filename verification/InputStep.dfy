/** The input step, which collects each endpoint's resume point for the next checkpoint, and the part
    of a checkpoint that turns the resume points into offsets. Endpoints come and go at any time, also
    while a step waits for them. */
module InputStep {
  import opened Common

  type Id = nat
  type Name(==, !new)
  type Offset(==, !new)

  /** Where an endpoint can resume after a step. */
  datatype Resume = Barrier | Seek(seek: Offset) | Replay(seek: Offset)

  datatype StepResults = StepResults(amt: nat, resume: Option<Resume>)

  datatype Endpoint = Endpoint(name: Name, faultTolerant: bool, barrier: bool)

  type Endpoints = map<Id, Endpoint>
  type Metadata = map<Name, Option<Resume>>
  type Reports = map<Id, Option<Resume>>

  predicate IsBarrier(r: Option<Resume>)
  {
    r.Some? && r.value.Barrier?
  }

  predicate Seekable(r: Option<Resume>)
  {
    r.Some? && !r.value.Barrier?
  }

  /** The endpoint can resume, and does so at `x`, whether or not it needs its log to be replayed. */
  predicate AtOffset(r: Option<Resume>, x: Offset)
  {
    r == Some(Seek(x)) || r == Some(Replay(x))
  }

  /** What the other threads do while the circuit thread waits. */
  datatype Change =
    | Add(name: Name, faultTolerant: bool)
    | Remove(id: Id)

  /** What the circuit thread finds each time it wakes up. */
  datatype Round = Round(changes: seq<Change>, progress: map<Id, StepResults>, closed: set<Id>)

  // ---------------------------------------------------------------- invariants

  ghost predicate UniqueNames(eps: Endpoints)
  {
    forall a, b | a in eps && b in eps && eps[a].name == eps[b].name :: a == b
  }

  /** The metadata has exactly what this endpoint last reported. */
  ghost predicate Known(m: Metadata, latest: Reports, a: Id, name: Name)
  {
    && (a in latest <==> name in m)
    && (a in latest ==> m[name] == latest[a])
  }

  ghost predicate ExactFor(eps: Endpoints, m: Metadata, latest: Reports)
  {
    forall a | a in eps :: Known(m, latest, a, eps[a].name)
  }

  /** A barrier flag is set only for a resume point that is a barrier. */
  ghost predicate BarriersRecorded(eps: Endpoints, m: Metadata)
  {
    forall a | a in eps && eps[a].barrier :: eps[a].name in m && m[eps[a].name] == Some(Barrier)
  }

  ghost predicate BarriersAgree(eps: Endpoints, m: Metadata)
  {
    forall a | a in eps :: eps[a].barrier <==> eps[a].name in m && m[eps[a].name] == Some(Barrier)
  }

  /** Endpoints of `after` that were there `before` have not changed. */
  ghost predicate Evolves(before: Endpoints, after: Endpoints, nextId: nat)
  {
    forall a | a in after :: if a in before then after[a] == before[a] else nextId <= a && !after[a].barrier
  }

  lemma EvolvesTransitive(a: Endpoints, aId: nat, b: Endpoints, bId: nat, c: Endpoints)
    requires Evolves(a, b, aId) && Evolves(b, c, bId) && aId <= bId && forall i | i in a :: i < aId
    ensures Evolves(a, c, aId)
  {
  }

  /** The same, apart from barrier flags. */
  ghost predicate Survives(before: Endpoints, after: Endpoints, nextId: nat)
  {
    forall a | a in after ::
      if a in before then after[a] == before[a].(barrier := after[a].barrier) else nextId <= a
  }

  lemma EvolvesSurvives(before: Endpoints, after: Endpoints, nextId: nat)
    requires Evolves(before, after, nextId)
    ensures Survives(before, after, nextId)
  {
  }

  predicate Skipped(e: Endpoint, barriersOnly: bool, committing: set<Name>)
  {
    (barriersOnly && !e.barrier) || e.name in committing
  }

  // ---------------------------------------------------------------- the three phases of a step

  /** Endpoints that are not flushed in this step carry over their last resume point. */
  ghost predicate CarriedOver(eps: Endpoints, m: Metadata, barriersOnly: bool, committing: set<Name>, seen: set<Id>,
                              waiting: set<Id>, carried: Reports)
    requires seen <= eps.Keys
  {
    && waiting == (set a | a in seen && !Skipped(eps[a], barriersOnly, committing))
    && carried == map a | a in seen && Skipped(eps[a], barriersOnly, committing) && eps[a].name in m :: m[eps[a].name]
  }

  /** Every endpoint that the step waited for has reported, or is gone. */
  ghost predicate Collected(eps: Endpoints, wanted: set<Id>, waiting: set<Id>, results: map<Id, StepResults>)
  {
    && waiting <= wanted && results.Keys <= wanted && waiting !! results.Keys
    && forall a | a in wanted && a in eps :: a in waiting || a in results
  }

  /** Every result is what its endpoint reported in the first round in which it did. */
  ghost predicate FromRounds(results: map<Id, StepResults>, rounds: seq<Round>)
  {
    forall a | a in results :: exists i | 0 <= i < |rounds| :: FirstReport(rounds, i, a, results[a])
  }

  ghost predicate FirstReport(rounds: seq<Round>, i: nat, a: Id, x: StepResults)
    requires i < |rounds|
  {
    a in rounds[i].progress && rounds[i].progress[a] == x && Unreported(rounds, i, a)
  }

  ghost predicate Unreported(rounds: seq<Round>, i: nat, a: Id)
    requires i <= |rounds|
  {
    forall k | 0 <= k < i :: a !in rounds[k].progress
  }

  lemma FromPrefix(results: map<Id, StepResults>, rounds: seq<Round>, i: nat)
    requires i <= |rounds| && FromRounds(results, rounds[..i])
    ensures FromRounds(results, rounds)
  {
    forall a | a in results ensures exists k | 0 <= k < |rounds| :: FirstReport(rounds, k, a, results[a]) {
      var k :| 0 <= k < i && FirstReport(rounds[..i], k, a, results[a]);
      ReportExtends(rounds[..i], rounds, k, a, results[a]);
    }
  }

  lemma ReportExtends(before: seq<Round>, rounds: seq<Round>, k: nat, a: Id, x: StepResults)
    requires before <= rounds && k < |before| && FirstReport(before, k, a, x)
    ensures FirstReport(rounds, k, a, x)
  {
  }

  lemma FromNextRound(results: map<Id, StepResults>, rounds: seq<Round>, i: nat, received: map<Id, StepResults>)
    requires i < |rounds| && FromRounds(results, rounds[..i])
    requires forall a | a in received :: FirstReport(rounds, i, a, received[a])
    ensures FromRounds(results + received, rounds[..i + 1])
  {
    var all, upto := results + received, rounds[..i + 1];
    forall a | a in all ensures exists k | 0 <= k < |upto| :: FirstReport(upto, k, a, all[a]) {
      if a in received {
        assert FirstReport(upto, i, a, all[a]);
      } else {
        var k :| 0 <= k < i && FirstReport(rounds[..i], k, a, results[a]);
        ReportExtends(rounds[..i], upto, k, a, results[a]);
        assert FirstReport(upto, k, a, all[a]);
      }
    }
  }

  /** No endpoint comes, goes or fails. */
  ghost predicate Undisturbed(rounds: seq<Round>)
  {
    forall i | 0 <= i < |rounds| :: rounds[i].changes == [] && rounds[i].closed == {}
  }

  /** The total of the amounts in some results. */
  ghost function Sum(results: map<Id, StepResults>): nat
  {
    if results == map[] then 0
    else
      var a :| a in results;
      results[a].amt + Sum(results - {a})
  }

  lemma {:induction false} SumRemove(results: map<Id, StepResults>, a: Id)
    requires a in results
    ensures Sum(results) == results[a].amt + Sum(results - {a})
    decreases |results|
  {
    var b :| b in results && Sum(results) == results[b].amt + Sum(results - {b});
    if a != b {
      var without := results - {b};
      SumRemove(without, a);
      SumRemove(results - {a}, b);
      assert without - {a} == (results - {a}) - {b};
    }
  }

  lemma SumAdd(results: map<Id, StepResults>, a: Id, x: StepResults)
    requires a !in results
    ensures Sum(results[a := x]) == Sum(results) + x.amt
  {
    SumRemove(results[a := x], a);
    assert results[a := x] - {a} == results;
  }

  lemma {:induction false} SumUnion(results: map<Id, StepResults>, more: map<Id, StepResults>)
    requires results.Keys !! more.Keys
    ensures Sum(results + more) == Sum(results) + Sum(more)
    decreases |more|
  {
    if more == map[] {
      assert results + more == results;
    } else {
      var a :| a in more;
      SumRemove(more, a);
      SumUnion(results, more - {a});
      UnionMinus(results, more, a);
      SumRemove(results + more, a);
    }
  }

  lemma UnionMinus(results: map<Id, StepResults>, more: map<Id, StepResults>, a: Id)
    requires results.Keys !! more.Keys && a in more
    ensures (results + more)[a] == more[a] && (results + more) - {a} == results + (more - {a})
  {
  }

  function Resumes(results: map<Id, StepResults>): Reports
  {
    map a | a in results :: results[a].resume
  }

  /** The metadata is that of the connected endpoints in `step`. */
  ghost predicate Saved(eps: Endpoints, step: Reports, m: Metadata)
  {
    && (forall a | a in eps && a in step :: eps[a].name in m && m[eps[a].name] == step[a])
    && (forall n | n in m :: exists a | a in eps :: a in step && eps[a].name == n)
  }

  // ---------------------------------------------------------------- exactness

  lemma SavedNames(eps: Endpoints, step: Reports, m: Metadata, a: Id)
    requires UniqueNames(eps) && Saved(eps, step, m) && a in eps
    ensures eps[a].name in m <==> a in step
    ensures a in step ==> m[eps[a].name] == step[a]
  {
  }

  /** After a step the metadata is exact if and only if it was exact for the endpoints that the step
      skipped and that are still there. */
  lemma ExactAfterStep(before: Endpoints, m: Metadata, latest: Reports, nextId: nat,
                       barriersOnly: bool, committing: set<Name>, wanted: set<Id>, carried: Reports,
                       results: map<Id, StepResults>, after: Endpoints, saved: Metadata)
    requires UniqueNames(after) && (forall a | a in before || a in latest :: a < nextId)
    requires CarriedOver(before, m, barriersOnly, committing, before.Keys, wanted, carried)
    requires Evolves(before, after, nextId) && Collected(after, wanted, {}, results)
    requires Saved(after, carried + Resumes(results), saved)
    ensures ExactFor(after, saved, latest + Resumes(results))
            <==> forall a | a in after && a in before && Skipped(before[a], barriersOnly, committing) ::
                   Known(m, latest, a, before[a].name)
  {
    forall a | a in after
      ensures Known(saved, latest + Resumes(results), a, after[a].name)
              <==> (a in before && Skipped(before[a], barriersOnly, committing)
                    ==> Known(m, latest, a, before[a].name))
    {
      SavedNames(after, carried + Resumes(results), saved, a);
    }
  }

  /** After a step the barrier flags agree with the metadata. */
  lemma BarriersAfterStep(before: Endpoints, m: Metadata, nextId: nat,
                          barriersOnly: bool, committing: set<Name>, wanted: set<Id>, carried: Reports,
                          results: map<Id, StepResults>, after: Endpoints, saved: Metadata, final: Endpoints)
    requires UniqueNames(after) && BarriersRecorded(before, m)
    requires CarriedOver(before, m, barriersOnly, committing, before.Keys, wanted, carried)
    requires Evolves(before, after, nextId) && Collected(after, wanted, {}, results)
    requires Saved(after, carried + Resumes(results), saved) && Flagged(after, carried + Resumes(results), final)
    ensures BarriersAgree(final, saved)
  {
    var step := carried + Resumes(results);
    forall a | a in final
      ensures final[a].barrier <==> final[a].name in saved && saved[final[a].name] == Some(Barrier)
    {
      SavedNames(after, step, saved, a);
    }
  }

  /** What a complete step leaves behind. */
  ghost predicate Outcome(before: Endpoints, m: Metadata, latest: Reports, barriersOnly: bool, committing: set<Name>,
                          results: map<Id, StepResults>, final: Endpoints, saved: Metadata)
  {
    && BarriersAgree(final, saved)
    && (forall n | n in saved :: Connected(final, n))
    && (forall a | a in final && a in before :: a in results <==> !Skipped(before[a], barriersOnly, committing))
    && (ExactFor(final, saved, latest + Resumes(results)) <==>
        forall a | a in final && a in before && Skipped(before[a], barriersOnly, committing) ::
          Known(m, latest, a, before[a].name))
  }

  lemma StepOutcome(before: Endpoints, m: Metadata, latest: Reports, nextId: nat,
                    barriersOnly: bool, committing: set<Name>, wanted: set<Id>, carried: Reports,
                    results: map<Id, StepResults>, after: Endpoints, saved: Metadata, final: Endpoints)
    requires UniqueNames(after) && BarriersRecorded(before, m) && (forall a | a in before || a in latest :: a < nextId)
    requires CarriedOver(before, m, barriersOnly, committing, before.Keys, wanted, carried)
    requires Evolves(before, after, nextId) && Collected(after, wanted, {}, results)
    requires Saved(after, carried + Resumes(results), saved) && Flagged(after, carried + Resumes(results), final)
    ensures Outcome(before, m, latest, barriersOnly, committing, results, final, saved)
            && Survives(before, final, nextId)
  {
    ExactAfterStep(before, m, latest, nextId, barriersOnly, committing, wanted, carried, results, after, saved);
    BarriersAfterStep(before, m, nextId, barriersOnly, committing, wanted, carried, results, after, saved, final);
    SavedConnected(after, carried + Resumes(results), saved, final);
    SameNames(after, final, saved, latest + Resumes(results));
  }

  /** What a step did for endpoint `a`, which is still there after it: an endpoint that took part has
      reported and its report is recorded, the resume point of one that did not take part is kept, and
      one that arrived during the step has none. */
  ghost predicate RecordedFor(a: Id, before: Endpoints, m: Metadata, barriersOnly: bool, committing: set<Name>,
                              results: map<Id, StepResults>, name: Name, saved: Metadata)
  {
    if a !in before then a !in results && name !in saved
    else if (barriersOnly ==> before[a].barrier) && name !in committing then
      a in results && name in saved && saved[name] == results[a].resume
    else
      a !in results && Read(saved, name) == Read(m, name)
  }

  /** Only endpoints that take part report; their reports are recorded, and the others' resume points stay. */
  ghost predicate Recorded(before: Endpoints, m: Metadata, barriersOnly: bool, committing: set<Name>,
                           results: map<Id, StepResults>, final: Endpoints, saved: Metadata)
  {
    && results.Keys <= before.Keys
    && (forall a | a in results && a in before ::
          (barriersOnly ==> before[a].barrier) && before[a].name !in committing)
    && (forall a | a in final :: RecordedFor(a, before, m, barriersOnly, committing, results, final[a].name, saved))
  }

  lemma StepRecords(before: Endpoints, m: Metadata, nextId: nat,
                    barriersOnly: bool, committing: set<Name>, wanted: set<Id>, carried: Reports,
                    results: map<Id, StepResults>, after: Endpoints, saved: Metadata, final: Endpoints)
    requires UniqueNames(after)
    requires CarriedOver(before, m, barriersOnly, committing, before.Keys, wanted, carried)
    requires Evolves(before, after, nextId) && Collected(after, wanted, {}, results)
    requires Saved(after, carried + Resumes(results), saved) && Flagged(after, carried + Resumes(results), final)
    ensures Recorded(before, m, barriersOnly, committing, results, final, saved)
  {
    forall a | a in final
      ensures RecordedFor(a, before, m, barriersOnly, committing, results, final[a].name, saved)
    {
      SavedNames(after, carried + Resumes(results), saved, a);
    }
  }

  /** Fault-tolerant endpoints that have reported said where to resume. */
  ghost predicate Resumable(eps: Endpoints, latest: Reports)
  {
    forall a | a in eps && eps[a].faultTolerant && a in latest :: latest[a].Some?
  }

  lemma ResumableAfterStep(before: Endpoints, latest: Reports, nextId: nat, results: map<Id, StepResults>,
                           after: Endpoints)
    requires Resumable(before, latest) && Survives(before, after, nextId) && forall a | a in latest :: a < nextId
    requires Resumable(after, Resumes(results))
    ensures Resumable(after, latest + Resumes(results))
  {
  }

  lemma SavedConnected(after: Endpoints, step: Reports, saved: Metadata, final: Endpoints)
    requires Saved(after, step, saved) && Flagged(after, step, final)
    ensures forall n | n in saved :: Connected(final, n)
  {
    forall n | n in saved ensures Connected(final, n) {
      var a :| a in after && a in step && after[a].name == n;
      assert final[a].name == n;
    }
  }

  lemma SameNames(eps: Endpoints, final: Endpoints, m: Metadata, latest: Reports)
    requires final.Keys == eps.Keys && forall a | a in eps :: final[a].name == eps[a].name
    ensures ExactFor(eps, m, latest) <==> ExactFor(final, m, latest)
  {
  }

  function Logged(logs: map<Name, Offset>): Metadata
  {
    map n | n in logs :: Some(Seek(logs[n]))
  }

  /** Where a replayed record leaves the endpoints that it has logs of. */
  function Resumed(eps: Endpoints, logs: map<Name, Offset>): Reports
  {
    map a | a in eps && eps[a].name in logs :: Some(Seek(logs[eps[a].name]))
  }

  lemma ExactAfterReplay(eps: Endpoints, latest: Reports, logs: map<Name, Offset>)
    ensures ExactFor(eps, Logged(logs), latest + Resumed(eps, logs))
            <==> forall a | a in eps && eps[a].name !in logs :: a !in latest
  {
    var m, now := Logged(logs), latest + Resumed(eps, logs);
    forall a | a in eps
      ensures Known(m, now, a, eps[a].name) <==> (eps[a].name !in logs ==> a !in latest)
    {
    }
  }

  // ---------------------------------------------------------------- steps of the loops

  /** The endpoints with their barrier flags set from `step`. */
  ghost predicate Flagged(eps: Endpoints, step: Reports, final: Endpoints)
  {
    && final.Keys == eps.Keys
    && forall a | a in eps :: final[a] == if a in step then eps[a].(barrier := IsBarrier(step[a])) else eps[a]
  }

  function StillWaiting(waiting: set<Id>, eps: Endpoints, r: Round): set<Id>
  {
    set a | a in waiting && a in eps && a !in r.progress && a !in r.closed
  }

  function Received(waiting: set<Id>, eps: Endpoints, r: Round): map<Id, StepResults>
  {
    map a | a in waiting && a in eps && a in r.progress :: r.progress[a]
  }

  function Failed(waiting: set<Id>, eps: Endpoints, r: Round): set<Id>
  {
    set a | a in waiting && a in eps && a !in r.progress && a in r.closed
  }

  /** Resume points of endpoints not yet seen are still there. */
  ghost predicate Untaken(eps: Endpoints, seen: set<Id>, before: Metadata, m: Metadata)
  {
    forall a | a in eps && a !in seen :: Read(m, eps[a].name) == Read(before, eps[a].name)
  }

  lemma PartitionStep(eps: Endpoints, m: Metadata, barriersOnly: bool, committing: set<Name>, seen: set<Id>,
                      waiting: set<Id>, carried: Reports, a: Id)
    requires seen <= eps.Keys && a in eps && a !in seen
    requires CarriedOver(eps, m, barriersOnly, committing, seen, waiting, carried)
    ensures
      var skipped := Skipped(eps[a], barriersOnly, committing);
      CarriedOver(eps, m, barriersOnly, committing, seen + {a},
                  if skipped then waiting else waiting + {a},
                  if skipped && eps[a].name in m then carried[a := m[eps[a].name]] else carried)
  {
  }

  lemma RoundCollects(eps: Endpoints, wanted: set<Id>, waiting: set<Id>, results: map<Id, StepResults>, r: Round)
    requires Collected(eps, wanted, waiting, results)
    ensures Collected(eps - Failed(waiting, eps, r), wanted, StillWaiting(waiting, eps, r),
                      results + Received(waiting, eps, r))
  {
  }

  lemma SaveStep(eps: Endpoints, step: Reports, a: Id, m: Metadata, seen: Reports)
    requires UniqueNames(eps) && a !in seen && a in step && Saved(eps, seen, m)
    ensures Saved(eps, seen[a := step[a]], if a in eps then m[eps[a].name := step[a]] else m)
  {
    var next := if a in eps then m[eps[a].name := step[a]] else m;
    forall n | n in next ensures exists b | b in eps :: b in seen[a := step[a]] && eps[b].name == n {
      if n in m {
        var b :| b in eps && b in seen && eps[b].name == n;
        assert b in seen[a := step[a]];
      } else {
        assert a in seen[a := step[a]];
      }
    }
  }

  // ---------------------------------------------------------------- the circuit thread's part

  datatype CheckpointStart = Permanent | Temporary | Panicked | Begun(offsets: map<Name, Offset>)

  class InputCollector {
    var endpoints: Endpoints
    var nextId: nat
    var inputMetadata: Metadata
    ghost var latest: Reports // what each endpoint last reported, or was opened with

    ghost predicate Registered()
      reads this
    {
      && UniqueNames(endpoints)
      && forall a | a in endpoints || a in latest :: a < nextId
    }

    ghost predicate Valid()
      reads this
    {
      Registered() && BarriersRecorded(endpoints, inputMetadata)
    }

    ghost predicate Exact()
      reads this
    {
      ExactFor(endpoints, inputMetadata, latest)
    }

    /** Starts from the offsets of a checkpoint. */
    constructor (offsets: map<Name, Offset>)
      ensures Valid() && Exact() && endpoints == map[]
      ensures inputMetadata == map n | n in offsets :: Some(Seek(offsets[n]))
    {
      endpoints, nextId := map[], 0;
      inputMetadata := map n | n in offsets :: Some(Seek(offsets[n]));
      latest := map[];
    }

    /** Connects an endpoint, possibly seeking to an offset. It breaks exactness if and only if the
        metadata has something else under the endpoint's name, such as the resume point of an earlier
        endpoint of that name. */
    method AddEndpoint(name: Name, faultTolerant: bool, seek: Option<Offset>) returns (id: Option<Id>)
      requires Registered()
      modifies this`endpoints, this`nextId, this`latest
      ensures Registered() && old(nextId) <= nextId
      ensures id.None? <==> exists a | a in old(endpoints) :: old(endpoints)[a].name == name
      ensures id.None? ==> endpoints == old(endpoints) && latest == old(latest)
      ensures id.Some? ==>
                && id.value == old(nextId)
                && endpoints == old(endpoints)[id.value := Endpoint(name, faultTolerant, false)]
                && latest == if seek.Some? then old(latest)[id.value := Some(Seek(seek.value))] else old(latest)
      ensures Evolves(old(endpoints), endpoints, old(nextId))
      ensures old(Valid()) ==> Valid()
      ensures id.Some? && old(Exact()) ==>
                (Exact() <==> Fits(inputMetadata, name, seek))
    {
      if exists a | a in endpoints :: endpoints[a].name == name {
        return None;
      }
      id := Some(nextId);
      endpoints := endpoints[nextId := Endpoint(name, faultTolerant, false)];
      if seek.Some? {
        latest := latest[nextId := Some(Seek(seek.value))];
      }
      ghost var a := nextId;
      nextId := nextId + 1;
      assert Exact() ==> Known(inputMetadata, latest, a, endpoints[a].name);
    }

    method RemoveEndpoint(id: Id)
      requires Registered()
      modifies this`endpoints
      ensures Registered() && endpoints == old(endpoints) - {id}
      ensures old(Valid()) ==> Valid()
      ensures old(Exact()) ==> Exact()
    {
      endpoints := endpoints - {id};
    }

    method ApplyChanges(changes: seq<Change>)
      requires Registered()
      modifies this`endpoints, this`nextId, this`latest
      ensures Registered() && old(nextId) <= nextId && latest == old(latest)
      ensures Evolves(old(endpoints), endpoints, old(nextId))
      ensures changes == [] ==> endpoints == old(endpoints)
    {
      for i := 0 to |changes|
        invariant Registered() && old(nextId) <= nextId && latest == old(latest)
        invariant Evolves(old(endpoints), endpoints, old(nextId))
        invariant i == 0 ==> endpoints == old(endpoints)
      {
        match changes[i] {
          case Add(name, faultTolerant) => var _ := AddEndpoint(name, faultTolerant, None);
          case Remove(id) => RemoveEndpoint(id);
        }
      }
    }

    /** Decides which endpoints to wait for, and takes the resume points of the others. */
    method Partition(barriersOnly: bool, committing: set<Name>) returns (waiting: set<Id>, carried: Reports)
      requires Registered()
      modifies this`inputMetadata
      ensures CarriedOver(endpoints, old(inputMetadata), barriersOnly, committing, endpoints.Keys, waiting, carried)
      ensures waiting <= endpoints.Keys && carried.Keys <= endpoints.Keys
      ensures forall a | a in endpoints ::
                a in waiting <==> (barriersOnly ==> endpoints[a].barrier) && endpoints[a].name !in committing
      ensures forall a | a in endpoints ::
                a in carried <==> a !in waiting && endpoints[a].name in old(inputMetadata)
      ensures forall a | a in carried :: carried[a] == old(inputMetadata)[endpoints[a].name]
    {
      waiting, carried := {}, map[];
      var seen := {};
      while endpoints.Keys - seen != {}
        invariant seen <= endpoints.Keys
        invariant CarriedOver(endpoints, old(inputMetadata), barriersOnly, committing, seen, waiting, carried)
        invariant Untaken(endpoints, seen, old(inputMetadata), inputMetadata)
        decreases endpoints.Keys - seen
      {
        var a :| a in endpoints.Keys - seen;
        var e := endpoints[a];
        PartitionStep(endpoints, old(inputMetadata), barriersOnly, committing, seen, waiting, carried, a);
        if Skipped(e, barriersOnly, committing) {
          if e.name in inputMetadata {
            carried := carried[a := inputMetadata[e.name]];
            inputMetadata := inputMetadata - {e.name};
          }
        } else {
          waiting := waiting + {a};
        }
        seen := seen + {a};
      }
      NoneLeft(endpoints.Keys, seen);
    }

    /** One pass over the endpoints that have not answered yet. */
    method Poll(waiting: set<Id>, r: Round) returns (still: set<Id>, received: map<Id, StepResults>, amount: nat)
      requires Registered()
      modifies this`endpoints
      ensures Registered() && amount == Sum(received)
      ensures still == StillWaiting(waiting, old(endpoints), r)
      ensures received == Received(waiting, old(endpoints), r)
      ensures endpoints == old(endpoints) - Failed(waiting, old(endpoints), r)
      ensures forall a :: a in received <==> a in waiting && a in old(endpoints) && a in r.progress
      ensures forall a | a in received :: received[a] == r.progress[a]
      ensures forall a :: a in endpoints <==>
                a in old(endpoints) && (a in waiting && a !in r.progress ==> a !in r.closed)
      ensures forall a :: a in still <==> a in waiting && a in endpoints && a !in received
    {
      still, received, amount := {}, map[], 0;
      var eps, failed, seen := endpoints, {}, {};
      while waiting - seen != {}
        invariant seen <= waiting && amount == Sum(received)
        invariant still == StillWaiting(seen, eps, r)
        invariant received == Received(seen, eps, r)
        invariant failed == Failed(seen, eps, r)
        decreases waiting - seen
      {
        var a :| a in waiting - seen;
        if a in eps {
          if a in r.progress {
            SumAdd(received, a, r.progress[a]);
            received := received[a := r.progress[a]];
            amount := amount + r.progress[a].amt;
          } else if a in r.closed {
            failed := failed + {a};
          } else {
            still := still + {a};
          }
        }
        seen := seen + {a};
      }
      NoneLeft(waiting, seen);
      endpoints := eps - failed;
    }

    /** Records the resume points of the endpoints that are still connected. */
    method Save(step: Reports)
      requires Registered()
      modifies this`inputMetadata, this`endpoints
      ensures Registered() && Saved(old(endpoints), step, inputMetadata) && Flagged(old(endpoints), step, endpoints)
    {
      var before := endpoints;
      var m: Metadata, eps, seen: Reports := map[], before, map[];
      while step.Keys - seen.Keys != {}
        invariant seen.Keys <= step.Keys && forall a | a in seen :: seen[a] == step[a]
        invariant Saved(before, seen, m) && Flagged(before, seen, eps)
        decreases step.Keys - seen.Keys
      {
        var a :| a in step.Keys - seen.Keys;
        SaveStep(before, step, a, m, seen);
        if a in before {
          m := m[before[a].name := step[a]];
          eps := eps[a := eps[a].(barrier := IsBarrier(step[a]))];
        }
        seen := seen[a := step[a]];
      }
      NoneLeft(step.Keys, seen.Keys);
      assert seen == step;
      inputMetadata, endpoints := m, eps;
    }

    /** Waits for the wanted endpoints, or gives up when the pipeline is terminated. */
    method Collect(wanted: set<Id>, rounds: seq<Round>, late: seq<Change>)
      returns (results: map<Id, StepResults>, total: nat, complete: bool)
      requires Registered() && forall a | a in wanted :: a < nextId
      modifies this`endpoints, this`nextId, this`latest
      ensures Registered() && old(nextId) <= nextId && latest == old(latest)
      ensures Evolves(old(endpoints), endpoints, old(nextId))
      ensures complete ==> Collected(endpoints, wanted, {}, results)
      ensures complete ==> FromRounds(results, rounds) && total == Sum(results)
      ensures |rounds| > 0 && wanted <= rounds[0].progress.Keys ==> complete
      ensures Undisturbed(rounds) && late == [] ==> endpoints == old(endpoints)
    {
      results, total := map[], 0;
      var waiting, i := wanted, 0;
      while waiting != {} && i < |rounds|
        invariant i <= |rounds| && Gathered(wanted, waiting, results, total, rounds, i)
        invariant Continues(old(endpoints), old(nextId), old(latest))
        invariant Undisturbed(rounds) ==> endpoints == old(endpoints)
        decreases |rounds| - i
      {
        waiting, results, total := CollectOnce(wanted, waiting, results, total, rounds, i, old(endpoints), old(nextId));
        i := i + 1;
      }
      FromPrefix(results, rounds, i);
      complete := waiting == {};
      ghost var before, id := endpoints, nextId;
      ApplyChanges(late);
      EvolvesTransitive(old(endpoints), old(nextId), before, id, endpoints);
    }

    /** Nothing but the coming and going of endpoints has happened. */
    ghost predicate Continues(first: Endpoints, firstId: nat, reported: Reports)
      reads this
    {
      Registered() && firstId <= nextId && latest == reported && Evolves(first, endpoints, firstId)
    }

    /** What has been gathered after `i` rounds. */
    ghost predicate Gathered(wanted: set<Id>, waiting: set<Id>, results: map<Id, StepResults>, total: nat,
                             rounds: seq<Round>, i: nat)
      requires i <= |rounds|
      reads this
    {
      && Collected(endpoints, wanted, waiting, results)
      && FromRounds(results, rounds[..i]) && total == Sum(results)
      && forall a | a in waiting :: Unreported(rounds, i, a)
    }

    method CollectOnce(wanted: set<Id>, waiting: set<Id>, results: map<Id, StepResults>, total: nat,
                       rounds: seq<Round>, i: nat, ghost first: Endpoints, ghost firstId: nat)
      returns (still: set<Id>, all: map<Id, StepResults>, sum: nat)
      requires i < |rounds| && Gathered(wanted, waiting, results, total, rounds, i)
      requires Continues(first, firstId, latest) && forall a | a in wanted || a in first :: a < firstId
      modifies this`endpoints, this`nextId, this`latest
      ensures Continues(first, firstId, old(latest)) && Gathered(wanted, still, all, sum, rounds, i + 1)
      ensures Undisturbed(rounds) ==> endpoints == old(endpoints)
    {
      ghost var before, id := endpoints, nextId;
      var r := rounds[i];
      ApplyChanges(r.changes);
      EvolvesTransitive(first, firstId, before, id, endpoints);
      assert Collected(endpoints, wanted, waiting, results);
      RoundCollects(endpoints, wanted, waiting, results, r);
      assert r.closed == {} ==> Failed(waiting, endpoints, r) == {};
      var received, amount;
      still, received, amount := Poll(waiting, r);
      FromNextRound(results, rounds, i, received);
      SumUnion(results, received);
      all, sum := results + received, total + amount;
    }

    /** One input step, which does nothing while the pipeline is bootstrapping or committing. Unless the
        pipeline is terminated meanwhile, it reports the total of what the endpoints consumed; the
        metadata then holds nothing but the resume points of connected endpoints, the barrier flags
        agree with it, and it is exact if and only if it was so for the endpoints that were skipped. */
    method InputStep(blocked: bool, barriersOnly: bool, committing: set<Name>, rounds: seq<Round>, late: seq<Change>)
      returns (total: Option<nat>, ghost results: map<Id, StepResults>)
      requires Valid()
      modifies this
      ensures Registered() && Survives(old(endpoints), endpoints, old(nextId))
      ensures |rounds| > 0 && old(endpoints).Keys <= rounds[0].progress.Keys ==> total.Some?
      ensures Undisturbed(rounds) && late == [] ==> endpoints.Keys == old(endpoints).Keys
      ensures blocked ==>
                && total == Some(0) && results == map[]
                && endpoints == old(endpoints) && inputMetadata == old(inputMetadata) && latest == old(latest)
      ensures !blocked && total.Some? ==>
                && Valid() && BarriersAgree(endpoints, inputMetadata)
                && (forall n | n in inputMetadata :: Connected(endpoints, n))
                && latest == old(latest) + Resumes(results)
                && FromRounds(results, rounds) && total.value == Sum(results)
                && (forall a | a in endpoints && a in old(endpoints) ::
                      a in results <==> !Skipped(old(endpoints)[a], barriersOnly, committing))
                && (Exact() <==>
                    forall a | a in endpoints && a in old(endpoints) &&
                               Skipped(old(endpoints)[a], barriersOnly, committing) ::
                      Known(old(inputMetadata), old(latest), a, old(endpoints)[a].name))
      ensures !blocked && total.Some? ==>
                Recorded(old(endpoints), old(inputMetadata), barriersOnly, committing, results, endpoints,
                         inputMetadata)
    {
      if blocked {
        return Some(0), map[];
      }
      total, results := Ingest(barriersOnly, committing, rounds, late);
    }

    method Ingest(barriersOnly: bool, committing: set<Name>, rounds: seq<Round>, late: seq<Change>)
      returns (total: Option<nat>, ghost results: map<Id, StepResults>)
      requires Valid()
      modifies this
      ensures Registered() && Survives(old(endpoints), endpoints, old(nextId))
      ensures |rounds| > 0 && old(endpoints).Keys <= rounds[0].progress.Keys ==> total.Some?
      ensures Undisturbed(rounds) && late == [] ==> endpoints.Keys == old(endpoints).Keys
      ensures total.Some? ==>
                && latest == old(latest) + Resumes(results)
                && FromRounds(results, rounds) && total.value == Sum(results)
                && Outcome(old(endpoints), old(inputMetadata), old(latest), barriersOnly, committing, results,
                           endpoints, inputMetadata)
                && Recorded(old(endpoints), old(inputMetadata), barriersOnly, committing, results, endpoints,
                            inputMetadata)
    {
      ghost var before, m, first, reported := endpoints, inputMetadata, nextId, latest;
      var waiting, carried := Partition(barriersOnly, committing);
      assert waiting <= before.Keys;
      var received, amount, complete := Collect(waiting, rounds, late);
      total, results := None, received;
      EvolvesSurvives(before, endpoints, first);
      if complete {
        Conclude(before, m, first, barriersOnly, committing, waiting, carried, received);
        total := Some(amount);
      }
    }

    /** An input step that replays a journal record, in which all endpoints take part. The metadata is then
        what the record's logs say, so that a checkpoint right after replay has the offsets. It is exact
        if and only if no other endpoint has ever reported anything. */
    method ReplayStep(logs: map<Name, Offset>, rounds: seq<Round>, late: seq<Change>)
      returns (total: Option<nat>, ghost results: map<Id, StepResults>)
      requires Registered()
      modifies this
      ensures Registered() && Evolves(old(endpoints), endpoints, old(nextId))
      ensures total.None? ==> inputMetadata == old(inputMetadata)
      ensures total.Some? ==>
                && total.value == Sum(results) && FromRounds(results, rounds)
                && Collected(endpoints, old(endpoints).Keys, {}, results)
                && inputMetadata.Keys == logs.Keys && (forall n | n in logs :: inputMetadata[n] == Some(Seek(logs[n])))
                && inputMetadata == Logged(logs) && latest == old(latest) + Resumed(endpoints, logs)
                && (Exact() <==> forall a | a in endpoints && endpoints[a].name !in logs :: a !in old(latest))
                && ((forall a | a in endpoints :: !endpoints[a].barrier) ==> Valid())
    {
      var received, amount, complete := Collect(endpoints.Keys, rounds, late);
      total, results := None, received;
      if complete {
        inputMetadata := Logged(logs);
        ghost var reported := latest;
        latest := latest + Resumed(endpoints, logs);
        total := Some(amount);
        ExactAfterReplay(endpoints, reported, logs);
      }
    }

    /** The end of a complete step, which began with the given endpoints and metadata. */
    method Conclude(ghost before: Endpoints, ghost m: Metadata, ghost first: nat, ghost barriersOnly: bool,
                    ghost committing: set<Name>, ghost wanted: set<Id>, carried: Reports,
                    received: map<Id, StepResults>)
      requires Registered() && Evolves(before, endpoints, first) && Collected(endpoints, wanted, {}, received)
      requires CarriedOver(before, m, barriersOnly, committing, before.Keys, wanted, carried)
      requires BarriersRecorded(before, m) && first <= nextId && forall a | a in before || a in latest :: a < first
      modifies this`inputMetadata, this`endpoints, this`latest
      ensures Registered() && endpoints.Keys == old(endpoints).Keys && latest == old(latest) + Resumes(received)
      ensures Survives(before, endpoints, first)
      ensures Outcome(before, m, old(latest), barriersOnly, committing, received, endpoints, inputMetadata)
      ensures Recorded(before, m, barriersOnly, committing, received, endpoints, inputMetadata)
    {
      ghost var after, reported := endpoints, latest;
      Save(carried + Resumes(received));
      latest := latest + Resumes(received);
      StepOutcome(before, m, reported, first, barriersOnly, committing, wanted, carried, received, after,
                  inputMetadata, endpoints);
      StepRecords(before, m, first, barriersOnly, committing, wanted, carried, received, after, inputMetadata,
                  endpoints);
    }

    /** Storage is missing or an endpoint cannot be resumed. */
    predicate NeverSuspends(storage: bool)
      reads this
    {
      !storage || exists a | a in endpoints :: !endpoints[a].faultTolerant
    }

    /** The pipeline is restoring, bootstrapping or in a transaction, or an endpoint is at a barrier. */
    predicate Busy(busy: bool)
      reads this
    {
      busy || exists a | a in endpoints :: endpoints[a].barrier
    }

    /** The offsets that a checkpoint records, or `None` where the original would panic. */
    method CheckpointOffsets() returns (offsets: Option<map<Name, Offset>>)
      ensures offsets.Some? <==> forall n | n in inputMetadata :: Seekable(inputMetadata[n])
      ensures offsets.None? <==> exists n | n in inputMetadata :: inputMetadata[n] in {None, Some(Barrier)}
      ensures offsets.Some? ==>
                && offsets.value.Keys == inputMetadata.Keys
                && forall n | n in inputMetadata :: AtOffset(inputMetadata[n], offsets.value[n])
    {
      var seen, done: map<Name, Offset> := {}, map[];
      while inputMetadata.Keys - seen != {}
        invariant seen <= inputMetadata.Keys && done.Keys == seen
        invariant forall n | n in seen :: Seekable(inputMetadata[n]) && AtOffset(inputMetadata[n], done[n])
        decreases inputMetadata.Keys - seen
      {
        var n :| n in inputMetadata.Keys - seen;
        if !Seekable(inputMetadata[n]) {
          return None;
        }
        done := done[n := inputMetadata[n].value.seek];
        seen := seen + {n};
      }
      NoneLeft(inputMetadata.Keys, seen);
      offsets := Some(done);
    }

    /** What a checkpoint can rely on after a step: exact metadata, agreeing barrier flags, and
        fault-tolerant endpoints that always report where to resume. */
    ghost predicate Checkpointable()
      reads this
    {
      && Exact() && BarriersAgree(endpoints, inputMetadata)
      && Resumable(endpoints, latest)
    }

    /** No endpoint was removed at a point where it cannot resume. */
    ghost predicate Tidy()
      reads this
    {
      forall n | n in inputMetadata :: Seekable(inputMetadata[n]) || Connected(endpoints, n)
    }

    /** Begins a checkpoint, unless it is refused for good or for now. The offsets of connected endpoints
        are their latest ones; taking the offsets panics if and only if an endpoint removed since the
        last step left no offset behind. */
    method BeginCheckpoint(storage: bool, busy: bool) returns (r: CheckpointStart)
      ensures r.Permanent? <==> !storage || exists a | a in endpoints :: !endpoints[a].faultTolerant
      ensures r.Temporary? <==> !r.Permanent? && (busy || exists a | a in endpoints :: endpoints[a].barrier)
      ensures r.Begun? ==>
                && r.offsets.Keys == inputMetadata.Keys
                && forall n | n in inputMetadata :: AtOffset(inputMetadata[n], r.offsets[n])
      ensures Checkpointable() && !r.Permanent? && !r.Temporary? ==> (r.Panicked? <==> !Tidy())
      ensures Checkpointable() && r.Begun? ==>
                forall a | a in endpoints && a in latest ::
                  && Seekable(latest[a]) && endpoints[a].name in r.offsets
                  && r.offsets[endpoints[a].name] == latest[a].value.seek
    {
      if NeverSuspends(storage) {
        return Permanent;
      }
      if Busy(busy) {
        return Temporary;
      }
      var offsets := CheckpointOffsets();
      if Checkpointable() {
        forall a | a in endpoints
          ensures Known(inputMetadata, latest, a, endpoints[a].name) && (a in latest ==> Seekable(latest[a]))
        {
        }
        if offsets.None? {
          ghost var n :| n in inputMetadata && !Seekable(inputMetadata[n]);
          assert !Connected(endpoints, n);
        }
      }
      r := if offsets.Some? then Begun(offsets.value) else Panicked;
    }

    /** Fault-tolerant endpoints said where to resume. */
    ghost predicate Honest(results: map<Id, StepResults>)
      reads this
    {
      forall a | a in results && a in endpoints && endpoints[a].faultTolerant :: results[a].resume.Some?
    }

    /** An input step from a state that can be checkpointed leads to one, and leaves it tidy. */
    method StepCheckpointably(blocked: bool, barriersOnly: bool, committing: set<Name>, rounds: seq<Round>,
                              late: seq<Change>)
      returns (total: Option<nat>, ghost results: map<Id, StepResults>)
      requires Valid()
      modifies this
      ensures total.Some? ==> Valid()
      ensures old(Checkpointable()) && total.Some? && Honest(results) ==>
                Checkpointable() && (!blocked || old(Tidy()) ==> Tidy())
    {
      ghost var before, reported, first := endpoints, latest, nextId;
      total, results := InputStep(blocked, barriersOnly, committing, rounds, late);
      if old(Checkpointable()) && total.Some? && !blocked && Honest(results) {
        ResumableAfterStep(before, reported, first, results, endpoints);
      }
    }

    /** Right after a complete step, a checkpoint never panics. */
    method StepThenCheckpoint(barriersOnly: bool, committing: set<Name>, rounds: seq<Round>, late: seq<Change>,
                              storage: bool, busy: bool)
      returns (r: Option<CheckpointStart>, ghost results: map<Id, StepResults>)
      requires Valid() && Checkpointable()
      modifies this
      ensures r.Some? ==> Valid()
      ensures r.Some? && Honest(results) ==> Exact() && !r.value.Panicked?
      ensures r.Some? && Honest(results) && r.value.Begun? ==>
                forall a | a in endpoints && a in latest ::
                  && Seekable(latest[a]) && endpoints[a].name in r.value.offsets
                  && r.value.offsets[endpoints[a].name] == latest[a].value.seek
    {
      var total;
      total, results := StepCheckpointably(false, barriersOnly, committing, rounds, late);
      if total.None? {
        return None, results;
      }
      var start := BeginCheckpoint(storage, busy);
      r := Some(start);
    }

    /** Any history of additions, removals, input steps and checkpoints. As long as additions fit the
        metadata and fault-tolerant endpoints say where to resume, no checkpoint panics unless an
        endpoint was removed since the last step. */
    method Serve(ops: seq<Op>) returns (panicked: bool, ghost fit: bool, ghost honest: bool)
      requires Valid() && Checkpointable() && Tidy()
      modifies this
      ensures fit && honest ==> !panicked
    {
      panicked, fit, honest := false, true, true;
      var removed, stopped, i := false, false, 0;
      while i < |ops| && !stopped
        invariant !stopped ==> Valid()
        invariant !stopped && fit && honest ==> Checkpointable() && (!removed ==> Tidy())
        invariant fit && honest ==> !panicked
        decreases |ops| - i, !stopped
      {
        match ops[i] {
          case Adding(name, faultTolerant, seek) =>
            fit := fit && Fits(inputMetadata, name, seek);
            var _ := AddEndpoint(name, faultTolerant, seek);
          case Removing(id) =>
            RemoveEndpoint(id);
            removed := true;
          case Stepping(blocked, barriersOnly, committing, rounds, late) =>
            var total;
            ghost var results;
            total, results := StepCheckpointably(blocked, barriersOnly, committing, rounds, late);
            honest := honest && Honest(results);
            stopped := total.None?;
            removed := removed && blocked;
          case Checkpointing(storage, busy) =>
            var r := BeginCheckpoint(storage, busy);
            panicked := panicked || (r.Panicked? && !removed);
        }
        i := i + 1;
      }
    }
  }

  /** The metadata has nothing under the name of a new endpoint but the offset that it starts from. */
  ghost predicate Fits(m: Metadata, name: Name, seek: Option<Offset>)
  {
    if seek.Some? then name in m && m[name] == Some(Seek(seek.value)) else name !in m
  }

  datatype Op =
    | Adding(name: Name, faultTolerant: bool, seek: Option<Offset>)
    | Removing(id: Id)
    | Stepping(blocked: bool, barriersOnly: bool, committing: set<Name>, rounds: seq<Round>, late: seq<Change>)
    | Checkpointing(storage: bool, busy: bool)

  /** An endpoint that is removed and added again between steps inherits its predecessor's offset, which
      the next checkpoint would record for it. */
  method ReaddedEndpointInheritsOffset(n: Name, x: Offset) returns (c: InputCollector, id: Id)
    ensures fresh(c) && id in c.endpoints && c.endpoints[id].name == n && id !in c.latest
    ensures c.inputMetadata == map[n := Some(Seek(x))] && !c.Exact()
  {
    c := new InputCollector(map[n := x]);
    var first := c.AddEndpoint(n, true, Some(x));
    c.RemoveEndpoint(first.value);
    var again := c.AddEndpoint(n, true, None);
    id := again.value;
    assert !Known(c.inputMetadata, c.latest, id, n);
  }

  lemma OnlyReport(results: map<Id, StepResults>, a: Id, x: StepResults)
    requires a in results && FromRounds(results, [Round([], map[a := x], {})])
    ensures results[a] == x
  {
  }

  /** A step in which the only endpoint reports a barrier. */
  method ReportBarrier(c: InputCollector, a: Id)
    requires c.Valid() && c.Exact() && c.endpoints.Keys == {a} && !c.endpoints[a].barrier
    modifies c
    ensures c.Valid() && c.endpoints.Keys == {a}
    ensures exists n | n in c.inputMetadata :: !Seekable(c.inputMetadata[n])
  {
    var x := StepResults(0, Some(Barrier));
    var round := Round([], map[a := x], {});
    var _, results := c.InputStep(false, false, {}, [round], []);
    OnlyReport(results, a, x);
    assert Known(c.inputMetadata, c.latest, a, c.endpoints[a].name);
    assert c.inputMetadata[c.endpoints[a].name] == Some(Barrier);
  }

  /** An endpoint that stops at a barrier and is then removed makes the next checkpoint panic. */
  method RemovedBarrierPanics(n: Name) returns (r: CheckpointStart)
    ensures r.Panicked?
  {
    var c := new InputCollector(map[]);
    var id := c.AddEndpoint(n, true, None);
    var a := id.value;
    ReportBarrier(c, a);
    c.RemoveEndpoint(a);
    assert c.endpoints == map[];
    r := c.BeginCheckpoint(true, false);
  }

  function Read(m: Metadata, n: Name): Option<Option<Resume>>
  {
    if n in m then Some(m[n]) else None
  }

  ghost predicate Connected(eps: Endpoints, n: Name)
  {
    exists a | a in eps :: eps[a].name == n
  }
}
