/** The backpressure thread, which tells input readers when to read more input and when to pause. */
module Backpressure {
  import opened Common

  type Id = nat

  datatype Command = Extend | Pause

  datatype PipelineState = Paused | Running | Terminated

  datatype Endpoint = Endpoint(pausedByUser: bool, buffered: nat, maxQueued: nat, hasReader: bool)
  {
    predicate IsFull() { buffered >= maxQueued }
  }

  predicate ShouldRun(state: PipelineState, bootstrapping: bool, e: Endpoint)
  {
    state.Running? && !bootstrapping && !e.pausedByUser && !e.IsFull()
  }

  function CommandsTo(sent: map<Id, seq<Command>>, a: Id): seq<Command>
  {
    if a in sent then sent[a] else []
  }

  /** Extend and Pause alternate, starting with Extend. */
  predicate Alternates(cs: seq<Command>)
  {
    forall i | 0 <= i < |cs| :: cs[i] == if i % 2 == 0 then Extend else Pause
  }

  /** An endpoint's reader is extended exactly if the thread believes so. */
  predicate InSync(cs: seq<Command>, running: bool)
  {
    Alternates(cs) && (running <==> |cs| % 2 == 1)
  }

  /** What one visit sends to a reader. */
  function Sent(running: bool, should: bool, hasReader: bool): seq<Command>
  {
    if running == should || !hasReader then [] else if should then [Extend] else [Pause]
  }

  /** A visit to an endpoint that is in sync leaves it so if and only if nothing changes for the
      endpoint or its reader is set. */
  lemma VisitKeepsSync(cs: seq<Command>, running: bool, should: bool, hasReader: bool)
    requires InSync(cs, running)
    ensures InSync(cs + Sent(running, should, hasReader), should) <==> running == should || hasReader
  {
    var now := cs + Sent(running, should, hasReader);
    if running == should {
      assert now == cs;
    } else if !hasReader {
      assert now == cs && InSync(cs, running);
    } else {
      assert forall i | 0 <= i < |cs| :: now[i] == cs[i];
    }
  }

  /** What the endpoints looked like in one pass of the thread. */
  datatype View = View(state: PipelineState, bootstrapping: bool, endpoints: map<Id, Endpoint>)

  /** The endpoint's reader is set whenever it is visited. */
  ghost predicate ReaderSet(views: seq<View>, a: Id)
  {
    forall i | 0 <= i < |views| && a in views[i].endpoints :: views[i].endpoints[a].hasReader
  }

  /** What visits to the endpoints `seen` have sent, and who the thread then believes is running. */
  ghost predicate Visited(v: View, seen: set<Id>, wasRunning: set<Id>, before: map<Id, seq<Command>>,
                          running: set<Id>, sent: map<Id, seq<Command>>)
    requires seen <= v.endpoints.Keys
  {
    forall a ::
      if a in seen then
        var should := ShouldRun(v.state, v.bootstrapping, v.endpoints[a]);
        && CommandsTo(sent, a) == CommandsTo(before, a) + Sent(a in wasRunning, should, v.endpoints[a].hasReader)
        && (a in running <==> should)
      else CommandsTo(sent, a) == CommandsTo(before, a) && (a in running <==> a in wasRunning)
  }

  class BackpressureThread {
    var running: set<Id>
    ghost var sent: map<Id, seq<Command>>

    constructor ()
      ensures running == {} && sent == map[]
    {
      running, sent := {}, map[];
    }

    /** One pass over the endpoints. */
    method Pass(v: View)
      requires !v.state.Terminated?
      modifies this
      ensures Visited(v, v.endpoints.Keys, old(running), old(sent), running, sent) && Obeyed(v, running)
    {
      var seen := {};
      while v.endpoints.Keys - seen != {}
        invariant seen <= v.endpoints.Keys
        invariant Visited(v, seen, old(running), old(sent), running, sent)
        decreases v.endpoints.Keys - seen
      {
        var a :| a in v.endpoints.Keys - seen;
        var e := v.endpoints[a];
        if ShouldRun(v.state, v.bootstrapping, e) {
          if a !in running {
            running := running + {a};
            if e.hasReader {
              sent := sent[a := CommandsTo(sent, a) + [Extend]];
            }
          }
        } else if a in running {
          running := running - {a};
          if e.hasReader {
            sent := sent[a := CommandsTo(sent, a) + [Pause]];
          }
        }
        seen := seen + {a};
      }
      NoneLeft(v.endpoints.Keys, seen);
    }

    /** The thread's whole life, until the pipeline terminates: every endpoint whose reader is set
        whenever it is visited gets alternating commands, starting with Extend, and after each pass it
        is extended exactly if it should run. Other endpoints do not matter to it. */
    method Serve(views: seq<View>) returns (passes: nat)
      requires running == {} && sent == map[]
      modifies this
      ensures passes <= |views| && (passes < |views| ==> views[passes].state.Terminated?)
      ensures forall a | ReaderSet(views[..passes], a) :: InSync(CommandsTo(sent, a), a in running)
      ensures passes > 0 ==> Obeyed(views[passes - 1], running)
    {
      passes := 0;
      while passes < |views| && !views[passes].state.Terminated?
        invariant passes <= |views|
        invariant forall a | ReaderSet(views[..passes], a) :: InSync(CommandsTo(sent, a), a in running)
        invariant passes > 0 ==> Obeyed(views[passes - 1], running)
        decreases |views| - passes
      {
        ghost var was, before := running, sent;
        Pass(views[passes]);
        forall a | ReaderSet(views[..passes + 1], a) ensures InSync(CommandsTo(sent, a), a in running) {
          ReaderSetBefore(views, passes, a);
          PassKeepsSync(views[passes], was, before, running, sent, a);
        }
        passes := passes + 1;
      }
    }
  }

  /** Exactly the endpoints that are not paused and have room are running, and only while the pipeline
      runs and is not bootstrapping. */
  ghost predicate Obeyed(v: View, running: set<Id>)
  {
    forall a | a in v.endpoints ::
      a in running <==>
        && v.state == Running && !v.bootstrapping
        && !v.endpoints[a].pausedByUser && v.endpoints[a].buffered < v.endpoints[a].maxQueued
  }

  lemma ReaderSetBefore(views: seq<View>, k: nat, a: Id)
    requires k < |views| && ReaderSet(views[..k + 1], a)
    ensures ReaderSet(views[..k], a)
    ensures a in views[k].endpoints ==> views[k].endpoints[a].hasReader
  {
    var all := views[..k + 1];
    assert all[k] == views[k];
    assert forall i | 0 <= i < k :: all[i] == views[i] == views[..k][i];
  }

  lemma PassKeepsSync(v: View, wasRunning: set<Id>, before: map<Id, seq<Command>>,
                      running: set<Id>, sent: map<Id, seq<Command>>, a: Id)
    requires Visited(v, v.endpoints.Keys, wasRunning, before, running, sent)
    requires InSync(CommandsTo(before, a), a in wasRunning) && (a in v.endpoints ==> v.endpoints[a].hasReader)
    ensures InSync(CommandsTo(sent, a), a in running)
  {
    if a in v.endpoints {
      VisitKeepsSync(CommandsTo(before, a), a in wasRunning, ShouldRun(v.state, v.bootstrapping, v.endpoints[a]), true);
    }
  }
}
