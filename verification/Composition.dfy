/** The input queues' transaction marks drive the controller's transaction protocol.
    In every run in which connectors act only through rounds of `InputQueue.Queue` and come and go at
    any time, the controller refuses none of their starts and commits, although the queues never look
    at its answer, unless a connector is added under the name of one that left a transaction open or
    whose reader has not finished its last round. */
module Composition {
  import opened Common
  import Q = InputQueue
  import T = Transactions

  /** Where the circuit thread is: between steps; waiting for the queued connectors, each of which
      still has to make the given calls in its round; or stepping the circuit. */
  datatype Phase = Between | Input(calls: map<string, seq<Q.Effect>>) | Stepping

  /** `open[n]` is the `transaction_in_progress` flag of the queue of connector `n`, if connected. `late`
      has the removed connectors with the calls that their readers may still make. `refused` tells of
      calls of connected connectors. */
  datatype World = World(
    info: T.Info,
    open: map<string, bool>,
    phase: Phase,
    late: seq<(string, seq<Q.Effect>)>,
    refused: bool)

  datatype Event =
    | ApiStart
    | ApiCommit
    | BeginInput(calls: map<string, seq<Q.Effect>>)
    | ConnectorCall(name: string)
    | EndInput
    | EndStep(committed: bool)
    | Connect(name: string)
    | Disconnect(name: string)
    | LateCall(reader: nat)

  ghost predicate Enabled(w: World, e: Event)
  {
    match e
    case ApiStart => true
    case ApiCommit => true
    case BeginInput(calls) =>
      // Nothing is queued while committing, and never a connector that has committed.
      && w.phase.Between?
      && calls.Keys <= w.open.Keys - w.info.initiators.CommittedConnectors()
      && (w.info.state.Committing? ==> calls == map[])
      && (forall n | n in calls :: exists after :: Q.RoundCalls(calls[n], w.open[n], after))
    case ConnectorCall(n) => w.phase.Input? && n in w.phase.calls && n in w.open && w.phase.calls[n] != []
    case EndInput => w.phase.Input? && forall n | n in w.phase.calls :: w.phase.calls[n] == []
    case EndStep(committed) => w.phase.Stepping? && (committed ==> w.info.state.Committing?)
    case Connect(n) => n !in w.open
    case Disconnect(n) => n in w.open
    case LateCall(k) => k < |w.late| && w.late[k].1 != []
  }

  function CallController(t: T.Info, n: string, call: Q.Effect): (T.Info, Result<(), T.Error>)
    requires !call.Flush?
  {
    if call.StartTx? then T.StartFromConnector(t, n, call.tag) else T.CommitFromConnector(t, n)
  }

  ghost function Step(w: World, e: Event): World
    requires Enabled(w, e)
  {
    match e
    case ApiStart => w.(info := T.StartFromApi(w.info).0)
    case ApiCommit => w.(info := T.CommitFromApi(w.info).0)
    case BeginInput(calls) => w.(phase := Input(calls))
    case ConnectorCall(n) =>
      var cs := w.phase.calls[n];
      if cs[0].Flush? then w.(phase := Input(w.phase.calls[n := cs[1..]]))
      else
        var (t, r) := CallController(w.info, n, cs[0]);
        w.(info := t, open := w.open[n := cs[0].StartTx?], phase := Input(w.phase.calls[n := cs[1..]]),
           refused := w.refused || r.Err?)
    case EndInput => w.(info := T.Advance(w.info).0, phase := Stepping)
    case EndStep(committed) => w.(info := if committed then T.FinishCommit(w.info) else w.info, phase := Between)
    case Connect(n) => w.(open := w.open[n := false])
    case Disconnect(n) =>
      // The controller keeps the name among the initiators, and no longer waits for the connector.
      w.(open := w.open - {n}, late := w.late + [(n, CallsLeft(w, n))],
         phase := if w.phase.Input? then Input(w.phase.calls - {n}) else w.phase)
    case LateCall(k) =>
      var (n, cs) := w.late[k];
      w.(info := if cs[0].Flush? then w.info else CallController(w.info, n, cs[0]).0,
         late := w.late[k := (n, cs[1..])])
  }

  function CallsLeft(w: World, n: string): seq<Q.Effect>
  {
    if w.phase.Input? && n in w.phase.calls then w.phase.calls[n] else []
  }

  /** Before any connector is there. */
  function Start(): World
  {
    World(T.Initial(), map[], Between, [], false)
  }

  ghost predicate IsRun(w: World, es: seq<Event>)
    decreases |es|
  {
    es == [] || (Enabled(w, es[0]) && IsRun(Step(w, es[0]), es[1..]))
  }

  ghost function Run(w: World, es: seq<Event>): World
    requires IsRun(w, es)
    decreases |es|
  {
    if es == [] then w else Run(Step(w, es[0]), es[1..])
  }

  /** Connector `n` has started the current transaction and not committed it. */
  predicate Joined(w: World, n: string)
  {
    w.info.initiators.PhaseOf(T.Connector(n)) == Some(T.Joined)
  }

  /** The reader of a removed connector `n` still has calls to make. */
  ghost predicate LatePending(w: World, n: string)
  {
    exists k | 0 <= k < |w.late| :: w.late[k].0 == n && w.late[k].1 != []
  }

  ghost predicate Free(w: World, n: string)
  {
    !Joined(w, n) && !LatePending(w, n)
  }

  /** No connector is added under a name that still takes part in the transaction or may yet do so. */
  ghost predicate NamesFree(w: World, es: seq<Event>)
    requires IsRun(w, es)
    decreases |es|
  {
    es == [] || ((es[0].Connect? ==> Free(w, es[0].name)) && NamesFree(Step(w, es[0]), es[1..]))
  }

  /** Calls that fit a queue whose flag is `open`: a start, a commit, or one after the other. */
  predicate CallsFit(cs: seq<Q.Effect>, open: bool)
  {
    || cs == []
    || (|cs| == 1 && (if open then cs[0].CommitTx? else cs[0].StartTx?))
    || (|cs| == 2 && !open && cs[0].StartTx? && cs[1].CommitTx?)
  }

  /** A connector with calls left to make has not committed, and nothing is committing. */
  ghost predicate CallsDue(w: World)
  {
    w.phase.Input? ==>
      && w.phase.calls.Keys <= w.open.Keys
      && (forall n | n in w.phase.calls :: CallsFit(w.phase.calls[n], w.open[n]))
      && (forall n | n in w.phase.calls && w.phase.calls[n] != [] ::
            !w.info.state.Committing? && w.info.initiators.PhaseOf(T.Connector(n)) != Some(T.Done))
  }

  /** The flag of a connected queue is up exactly while the controller holds its connector as a
      started participant. */
  ghost predicate Agree(w: World)
  {
    && T.Inv(w.info)
    && (forall n | n in w.open :: (w.open[n] <==> Joined(w, n)) && !LatePending(w, n))
    && CallsDue(w)
  }

  /** A call that is due succeeds. */
  lemma CallAccepted(w: World, n: string)
    requires Agree(w) && Enabled(w, ConnectorCall(n))
    ensures !w.phase.calls[n][0].Flush?
    ensures CallController(w.info, n, w.phase.calls[n][0]).1.Ok?
  {
    assert CallsFit(w.phase.calls[n], w.open[n]);
    PhaseCases(w.info.initiators.PhaseOf(T.Connector(n)));
  }

  lemma PhaseCases(p: Option<T.Phase>)
    ensures p == None || p == Some(T.Joined) || p == Some(T.Done)
  {
    match p
    case None =>
    case Some(Joined) =>
    case Some(Done) =>
  }

  /** An accepted call moves only the caller's phase. Forgetting the initiators, which a commit may
      do, is safe because it happens only when nobody is left in. */
  lemma CallMovesOnlyCaller(t: T.Info, n: string, call: Q.Effect)
    requires !call.Flush? && CallController(t, n, call).1.Ok?
    ensures var i := CallController(t, n, call).0.initiators;
      && (i.PhaseOf(T.Connector(n)) == Some(T.Joined) <==> call.StartTx?)
      && forall m | m != n ::
           && (i.PhaseOf(T.Connector(m)) == Some(T.Joined) <==> t.initiators.PhaseOf(T.Connector(m)) == Some(T.Joined))
           && (i.PhaseOf(T.Connector(m)) == Some(T.Done) ==> t.initiators.PhaseOf(T.Connector(m)) == Some(T.Done))
    ensures CallController(t, n, call).0.state == t.state
  {
    if call.CommitTx? {
      var c := t.initiators.connectors;
      var j := t.initiators.(connectors := c[n := c[n].(phase := T.Done)]);
      if !j.IsOngoing() {
        forall m | m != n ensures t.initiators.PhaseOf(T.Connector(m)) != Some(T.Joined) {
          if m in c && c[m].phase == T.Joined {
            T.OngoingWitness(j, m);
          }
        }
      }
    }
  }

  lemma CallKeepsInv(t: T.Info, n: string, call: Q.Effect)
    requires T.Inv(t) && !call.Flush?
    ensures T.Inv(CallController(t, n, call).0)
  {
    if call.StartTx? {
      T.StepKeepsInv(t, T.ConnectorStart(n, call.tag));
    } else {
      T.StepKeepsInv(t, T.ConnectorCommit(n));
    }
  }

  lemma CallKeepsAgree(w: World, n: string)
    requires Agree(w) && Enabled(w, ConnectorCall(n))
    ensures Agree(Step(w, ConnectorCall(n)))
    ensures Step(w, ConnectorCall(n)).refused == w.refused
  {
    var cs := w.phase.calls[n];
    assert CallsFit(cs, w.open[n]);
    CallAccepted(w, n);
    CallKeepsInv(w.info, n, cs[0]);
    CallMovesOnlyCaller(w.info, n, cs[0]);
    assert CallsFit(cs[1..], cs[0].StartTx?);
  }

  lemma BeginKeepsAgree(w: World, calls: map<string, seq<Q.Effect>>)
    requires Agree(w) && Enabled(w, BeginInput(calls))
    ensures Agree(Step(w, BeginInput(calls)))
  {
    forall n | n in calls
      ensures CallsFit(calls[n], w.open[n]) && w.info.initiators.PhaseOf(T.Connector(n)) != Some(T.Done)
    {
      var after :| Q.RoundCalls(calls[n], w.open[n], after);
      assert n !in w.info.initiators.CommittedConnectors();
    }
  }

  /** The API and the circuit thread never move a connector into or out of a transaction, except by
      forgetting one that has nobody left in. */
  lemma OthersKeepAgree(w: World, e: Event)
    requires Agree(w) && Enabled(w, e)
    requires e.ApiStart? || e.ApiCommit? || e.EndInput? || e.EndStep?
    ensures Agree(Step(w, e))
  {
    match e
    case ApiStart => T.StepKeepsInv(w.info, T.ApiStart);
    case ApiCommit =>
      T.StepKeepsInv(w.info, T.ApiCommit);
      ForgottenOnlyIfDone(w.info.initiators.(api := Some(T.Done)));
    case EndInput =>
      T.StepKeepsInv(w.info, T.CircuitAdvance);
      ForgottenOnlyIfDone(w.info.initiators);
    case EndStep(_) => T.StepKeepsInv(w.info, T.CircuitCommitted);
  }

  lemma ForgottenOnlyIfDone(i: T.Initiators)
    ensures !i.IsOngoing() ==> forall n :: i.PhaseOf(T.Connector(n)) != Some(T.Joined)
  {
    if !i.IsOngoing() {
      forall n ensures i.PhaseOf(T.Connector(n)) != Some(T.Joined) {
        if n in i.connectors && i.connectors[n].phase == T.Joined {
          T.OngoingWitness(i, n);
        }
      }
    }
  }

  lemma LateKept(w: World, k: nat, v: World, n: string)
    requires k < |w.late| && w.late[k].1 != [] && v.late == w.late[k := (w.late[k].0, w.late[k].1[1..])]
    ensures LatePending(v, n) ==> LatePending(w, n)
  {
    if LatePending(v, n) {
      var i :| 0 <= i < |v.late| && v.late[i].0 == n && v.late[i].1 != [];
      assert w.late[i].0 == n && w.late[i].1 != [];
    }
  }

  /** A refused call changes nothing. */
  lemma RefusalKeeps(t: T.Info, n: string, call: Q.Effect)
    requires T.Inv(t) && !call.Flush? && CallController(t, n, call).1.Err?
    ensures CallController(t, n, call).0 == t
  {
  }

  /** A late call of a removed reader, refused or not, does not touch the connected connectors. */
  lemma LateKeepsAgree(w: World, k: nat)
    requires Agree(w) && Enabled(w, LateCall(k))
    ensures Agree(Step(w, LateCall(k)))
  {
    var v := Step(w, LateCall(k));
    var (n, cs) := w.late[k];
    forall m ensures LatePending(v, m) ==> LatePending(w, m) {
      LateKept(w, k, v, m);
    }
    assert LatePending(w, n);
    if !cs[0].Flush? {
      CallKeepsInv(w.info, n, cs[0]);
      if CallController(w.info, n, cs[0]).1.Ok? {
        CallMovesOnlyCaller(w.info, n, cs[0]);
      } else {
        RefusalKeeps(w.info, n, cs[0]);
      }
    }
  }

  lemma DisconnectKeepsAgree(w: World, n: string)
    requires Agree(w) && Enabled(w, Disconnect(n))
    ensures Agree(Step(w, Disconnect(n)))
  {
    forall m | m != n ensures LatePending(Step(w, Disconnect(n)), m) ==> LatePending(w, m) {
      LateAfterDisconnect(w, n, m);
    }
  }

  lemma LateAfterDisconnect(w: World, n: string, m: string)
    requires Enabled(w, Disconnect(n)) && m != n
    ensures LatePending(Step(w, Disconnect(n)), m) ==> LatePending(w, m)
  {
    var v := Step(w, Disconnect(n));
    if LatePending(v, m) {
      var i :| 0 <= i < |v.late| && v.late[i].0 == m && v.late[i].1 != [];
      assert w.late[i].0 == m && w.late[i].1 != [];
    }
  }

  lemma StepKeepsAgree(w: World, e: Event)
    requires Agree(w) && Enabled(w, e) && (e.Connect? ==> Free(w, e.name))
    ensures Agree(Step(w, e)) && Step(w, e).refused == w.refused
  {
    match e
    case BeginInput(calls) => BeginKeepsAgree(w, calls);
    case ConnectorCall(n) => CallKeepsAgree(w, n);
    case Connect(_) =>
    case Disconnect(n) => DisconnectKeepsAgree(w, n);
    case LateCall(k) => LateKeepsAgree(w, k);
    case _ => OthersKeepAgree(w, e);
  }

  lemma {:induction false} RunKeepsAgree(w: World, es: seq<Event>)
    requires Agree(w) && IsRun(w, es) && NamesFree(w, es)
    ensures Agree(Run(w, es)) && Run(w, es).refused == w.refused
    decreases |es|
  {
    if es != [] {
      StepKeepsAgree(w, es[0]);
      RunKeepsAgree(Step(w, es[0]), es[1..]);
    }
  }

  /** The two protocols compose: no start or commit of a connected connector is refused in any run that
      adds connectors only under free names. */
  lemma NeverRefused(es: seq<Event>)
    requires IsRun(Start(), es) && NamesFree(Start(), es)
    ensures Agree(Run(Start(), es)) && !Run(Start(), es).refused
  {
    RunKeepsAgree(Start(), es);
  }

  // ---------------------------------------------------------------- the transaction protocol underneath

  function CallEvent(n: string, call: Q.Effect): seq<T.Event>
  {
    match call
    case Flush(_) => []
    case StartTx(tag) => [T.ConnectorStart(n, tag)]
    case CommitTx => [T.ConnectorCommit(n)]
  }

  /** What an event is to the transaction protocol, if anything. */
  ghost function Projected(w: World, e: Event): seq<T.Event>
    requires Enabled(w, e)
  {
    match e
    case ApiStart => [T.ApiStart]
    case ApiCommit => [T.ApiCommit]
    case ConnectorCall(n) => CallEvent(n, w.phase.calls[n][0])
    case LateCall(k) => CallEvent(w.late[k].0, w.late[k].1[0])
    case EndInput => [T.CircuitAdvance]
    case EndStep(committed) => if committed then [T.CircuitCommitted] else []
    case _ => []
  }

  ghost function ProjectedRun(w: World, es: seq<Event>): seq<T.Event>
    requires IsRun(w, es)
    decreases |es|
  {
    if es == [] then [] else Projected(w, es[0]) + ProjectedRun(Step(w, es[0]), es[1..])
  }

  /** Each event takes at most one step of the transaction protocol, and is refused when that step fails. */
  lemma StepProjects(w: World, e: Event)
    requires Enabled(w, e)
    ensures
      var (ts, v) := (Projected(w, e), Step(w, e));
      if ts == [] then v.info == w.info && v.refused == w.refused
      else
        && |ts| == 1 && v.info == T.Step(w.info, ts[0]).0
        && v.refused == (w.refused || (e.ConnectorCall? && !T.Step(w.info, ts[0]).1))
  {
  }

  lemma ExecSnoc(ts: seq<T.Event>, t: T.Event)
    ensures T.Exec(ts + [t]) == T.StepWorld(T.Exec(ts), t)
  {
    assert (ts + [t])[..|ts|] == ts;
  }

  lemma ExecProjects(w: World, e: Event, ts: seq<T.Event>) returns (p: seq<T.Event>)
    requires Enabled(w, e) && T.Exec(ts).info == w.info
    ensures p == Projected(w, e) && T.Exec(ts + p).info == Step(w, e).info
  {
    p := Projected(w, e);
    StepProjects(w, e);
    if p == [] {
      assert ts + p == ts;
    } else {
      assert ts + p == ts + [p[0]];
      ExecSnoc(ts, p[0]);
    }
  }

  /** Every run of the composed system is a run of the transaction protocol. */
  lemma {:induction false} RunProjects(w: World, es: seq<Event>, ts: seq<T.Event>)
    requires IsRun(w, es) && T.Exec(ts).info == w.info
    ensures T.Exec(ts + ProjectedRun(w, es)).info == Run(w, es).info
    decreases |es|
  {
    if es == [] {
      assert ts + [] == ts;
    } else {
      var p := ExecProjects(w, es[0], ts);
      RunProjects(Step(w, es[0]), es[1..], ts + p);
      Assoc(ts, p, ProjectedRun(Step(w, es[0]), es[1..]));
    }
  }

  /** So whatever the connectors do, the circuit starts transactions one at a time and commits each before
      the next, and the transaction in progress is the one it was told of last. */
  lemma CircuitAlternates(es: seq<Event>)
    requires IsRun(Start(), es)
    ensures
      var reports := T.Reports(ProjectedRun(Start(), es));
      T.Alternating(reports) && T.LastReportTells(Run(Start(), es).info, T.LastReport(reports))
  {
    var ts := ProjectedRun(Start(), es);
    RunProjects(Start(), es, []);
    assert [] + ts == ts;
    T.ReportsAlternate(ts);
  }

  /** One pass of the circuit thread, in which no connector has anything to do. */
  function IdlePass(committed: bool): seq<Event>
  {
    [BeginInput(map[]), EndInput, EndStep(committed)]
  }

  lemma RunPass(w: World, committed: bool)
    requires w.phase.Between? && (committed ==> T.Advance(w.info).0.state.Committing?)
    ensures IsRun(w, IdlePass(committed)) && NamesFree(w, IdlePass(committed))
    ensures
      var t := T.Advance(w.info).0;
      Run(w, IdlePass(committed)) == w.(info := if committed then T.FinishCommit(t) else t)
  {
    var v := Step(w, BeginInput(map[]));
    var u := Step(v, EndInput);
    var x := Step(u, EndStep(committed));
    RunCons(u, EndStep(committed), []);
    RunCons(v, EndInput, [EndStep(committed)]);
    RunCons(w, BeginInput(map[]), [EndInput, EndStep(committed)]);
    assert IdlePass(committed) == [BeginInput(map[])] + [EndInput, EndStep(committed)];
    assert [EndInput, EndStep(committed)] == [EndInput] + [EndStep(committed)];
    assert x.phase == w.phase;
  }

  /** Once everyone has committed, one pass of the circuit thread whose step completes the commit leaves
      the pipeline idle with nobody taking part, so that every connector can be queued again. */
  lemma CommitCompletes(w: World)
    requires T.Inv(w.info) && w.phase.Between? && T.NobodyJoined(w.info.initiators)
    ensures
      var es := IdlePass(!w.info.state.Idle?);
      IsRun(w, es) && Run(w, es) == w.(info := T.Info(w.info.last, T.Nobody(), T.Idle))
  {
    T.AdvanceReports(w.info);
    if w.info.state.Started? {
      T.AdvanceCommits(w.info, w.info.state.id);
    }
    RunPass(w, !w.info.state.Idle?);
  }

  /** If somebody has joined while the pipeline is idle, one pass starts the transaction. */
  lemma StartHappens(w: World, who: T.Initiator)
    requires T.Inv(w.info) && w.phase.Between? && w.info.state.Idle?
    requires w.info.initiators.PhaseOf(who) == Some(T.Joined)
    ensures IsRun(w, IdlePass(false))
    ensures Run(w, IdlePass(false)) == w.(info := w.info.(state := T.Started(w.info.last)))
  {
    T.AdvanceStarts(w.info, who);
    RunPass(w, false);
  }

  // ---------------------------------------------------------------- the condition is exact

  lemma RunCons(w: World, e: Event, es: seq<Event>)
    requires Enabled(w, e) && IsRun(Step(w, e), es)
    ensures IsRun(w, [e] + es) && Run(w, [e] + es) == Run(Step(w, e), es)
    ensures NamesFree(Step(w, e), es) && (e.Connect? ==> Free(w, e.name)) ==> NamesFree(w, [e] + es)
  {
    assert ([e] + es)[1..] == es;
  }

  /** A connector's queue is new although its name has joined the transaction. */
  ghost predicate Reused(w: World, n: string)
  {
    && T.Inv(w.info) && Joined(w, n)
    && n in w.open && !w.open[n]
    && (w.phase.Input? ==> n !in w.phase.calls && w.phase.calls.Keys <= w.open.Keys)
  }

  lemma JoinedStays(t: T.Info, n: string)
    requires T.Inv(t) && t.initiators.PhaseOf(T.Connector(n)) == Some(T.Joined)
    ensures !t.state.Committing? && t.initiators.IsOngoing()
    ensures T.Inv(T.Advance(t).0) && T.Advance(t).0.initiators == t.initiators
  {
    T.OngoingWitness(t.initiators, n);
    T.StepKeepsInv(t, T.CircuitAdvance);
  }

  /** From there the circuit thread can get to its next input step. */
  lemma {:induction false} NextInput(w: World, n: string) returns (es: seq<Event>)
    requires Reused(w, n)
    ensures IsRun(w, es) && NamesFree(w, es)
    ensures Reused(Run(w, es), n) && Run(w, es).phase.Between?
    decreases match w.phase case Between => 0 case Stepping => 1 case Input(calls) => 2 + |calls|
  {
    JoinedStays(w.info, n);
    match w.phase
    case Between => es := [];
    case Stepping =>
      es := NextInput(Step(w, EndStep(false)), n);
      RunCons(w, EndStep(false), es);
      es := [EndStep(false)] + es;
    case Input(calls) =>
      var e := EndInput;
      if calls != map[] {
        var m :| m in calls;
        e := Disconnect(m);
      }
      es := NextInput(Step(w, e), n);
      RunCons(w, e, es);
      es := [e] + es;
  }

  /** The start that the new queue then makes is refused. */
  lemma StartRefused(w: World, n: string) returns (es: seq<Event>)
    requires Reused(w, n) && w.phase.Between?
    ensures IsRun(w, es) && NamesFree(w, es) && Run(w, es).refused
  {
    JoinedStays(w.info, n);
    var start := Q.StartTx(None);
    var calls := map[n := [start]];
    assert Q.RoundCalls(calls[n], w.open[n], true);
    var v := Step(w, BeginInput(calls));
    var u := Step(v, ConnectorCall(n));
    assert T.StartFromConnector(v.info, n, None).1.Err?;
    RunCons(v, ConnectorCall(n), []);
    RunCons(w, BeginInput(calls), [ConnectorCall(n)]);
    es := [BeginInput(calls)] + [ConnectorCall(n)];
  }

  ghost predicate NeverRefusedFrom(w: World)
  {
    forall es | IsRun(w, es) && NamesFree(w, es) :: !Run(w, es).refused
  }

  lemma {:induction false} RunAppend(w: World, a: seq<Event>, b: seq<Event>)
    requires IsRun(w, a) && IsRun(Run(w, a), b)
    ensures IsRun(w, a + b) && Run(w, a + b) == Run(Run(w, a), b)
    ensures NamesFree(w, a) && NamesFree(Run(w, a), b) ==> NamesFree(w, a + b)
    decreases |a|
  {
    if a == [] {
      assert a + b == b;
    } else {
      RunAppend(Step(w, a[0]), a[1..], b);
      assert (a + b)[1..] == a[1..] + b;
    }
  }

  /** Adding a connector under a name without a reader that is still at work leads to no refusal in any
      future if and only if the name has not left the transaction open. It may have committed the
      transaction, since it is then not queued until the transaction is over. */
  lemma ConnectSafeIff(w: World, n: string)
    requires Agree(w) && !w.refused && Enabled(w, Connect(n)) && !LatePending(w, n)
    ensures NeverRefusedFrom(Step(w, Connect(n))) <==> !Joined(w, n)
  {
    var v := Step(w, Connect(n));
    if Joined(w, n) {
      var a := NextInput(v, n);
      var b := StartRefused(Run(v, a), n);
      RunAppend(v, a, b);
    } else {
      StepKeepsAgree(w, Connect(n));
      forall es | IsRun(v, es) && NamesFree(v, es) ensures !Run(v, es).refused {
        RunKeepsAgree(v, es);
      }
    }
  }

  // A name whose old reader has yet to make a start is not safe either.

  /** A new queue and, in `late[k]`, an old reader that is about to start a transaction share a name. */
  ghost predicate Contended(w: World, n: string, k: nat)
  {
    && T.Inv(w.info) && w.info.initiators.PhaseOf(T.Connector(n)) == None
    && n in w.open && !w.open[n]
    && k < |w.late| && w.late[k].0 == n && w.late[k].1 != [] && w.late[k].1[0].StartTx?
    && (w.phase.Input? ==>
          && n !in w.phase.calls && w.phase.calls.Keys <= w.open.Keys
          && (w.info.state.Committing? ==> forall m | m in w.phase.calls :: w.phase.calls[m] == []))
  }

  /** The circuit thread can finish a commit first. */
  lemma {:induction false} CommitEnds(w: World, n: string, k: nat) returns (es: seq<Event>)
    requires Contended(w, n, k)
    ensures IsRun(w, es) && NamesFree(w, es)
    ensures Contended(Run(w, es), n, k) && !Run(w, es).info.state.Committing?
    decreases if w.info.state.Committing? then 1 else 0,
              match w.phase case Between => 2 case Input(_) => 1 case Stepping => 0
  {
    if !w.info.state.Committing? {
      es := [];
    } else {
      var e := match w.phase case Between => BeginInput(map[]) case Input(_) => EndInput case Stepping => EndStep(true);
      T.StepKeepsInv(w.info, T.CircuitAdvance);
      T.StepKeepsInv(w.info, T.CircuitCommitted);
      es := CommitEnds(Step(w, e), n, k);
      RunCons(w, e, es);
      es := [e] + es;
    }
  }

  lemma LateStartJoins(w: World, n: string, k: nat)
    requires Contended(w, n, k) && !w.info.state.Committing?
    ensures Enabled(w, LateCall(k)) && Reused(Step(w, LateCall(k)), n)
  {
    CallKeepsInv(w.info, n, w.late[k].1[0]);
  }

  lemma LateStartRefuses(w: World, n: string, k: nat) returns (es: seq<Event>)
    requires Contended(w, n, k)
    ensures IsRun(w, es) && NamesFree(w, es) && Run(w, es).refused
  {
    var a := CommitEnds(w, n, k);
    var v := Run(w, a);
    LateStartJoins(v, n, k);
    var u := Step(v, LateCall(k));
    var b := NextInput(u, n);
    var c := StartRefused(Run(u, b), n);
    RunAppend(u, b, c);
    RunCons(v, LateCall(k), b + c);
    RunAppend(w, a, [LateCall(k)] + (b + c));
    es := a + ([LateCall(k)] + (b + c));
  }

  /** Adding a connector while the old reader of that name has a start still to make leads to a refusal
      in some future. */
  lemma ConnectBeforeLateStart(w: World, n: string, k: nat)
    requires Agree(w) && Enabled(w, Connect(n)) && w.info.initiators.PhaseOf(T.Connector(n)) == None
    requires k < |w.late| && w.late[k].0 == n && w.late[k].1 != [] && w.late[k].1[0].StartTx?
    ensures !NeverRefusedFrom(Step(w, Connect(n)))
  {
    var es := LateStartRefuses(Step(w, Connect(n)), n, k);
  }

  /** A connector that is removed before it makes the start of its round and is added again at once can
      have its start refused, because the old reader's start comes first. */
  lemma LateStartRun(n: string) returns (es: seq<Event>)
    ensures IsRun(Start(), es) && Run(Start(), es).refused
  {
    var calls := map[n := [Q.StartTx(None)]];
    var w0 := Start();
    var w1 := Step(w0, Connect(n));
    assert Q.RoundCalls(calls[n], w1.open[n], true);
    var w2 := Step(w1, BeginInput(calls));
    var w3 := Step(w2, Disconnect(n));
    assert w3.late == [(n, [Q.StartTx(None)])];
    var w4 := Step(w3, Connect(n));
    es := LateStartRefuses(w4, n, 0);
    RunCons(w3, Connect(n), es);
    RunCons(w2, Disconnect(n), [Connect(n)] + es);
    RunCons(w1, BeginInput(calls), [Disconnect(n)] + ([Connect(n)] + es));
    es := [BeginInput(calls)] + ([Disconnect(n)] + ([Connect(n)] + es));
    RunCons(w0, Connect(n), es);
    es := [Connect(n)] + es;
  }

  /** A connector that starts a transaction, is removed and is added again has its next start refused. */
  lemma ReaddedConnectorRefused(n: string) returns (es: seq<Event>)
    ensures IsRun(Start(), es) && Run(Start(), es).refused
  {
    var calls := map[n := [Q.StartTx(None)]];
    var w0 := Start();
    var w1 := Step(w0, Connect(n));
    assert Q.RoundCalls(calls[n], w1.open[n], true);
    var w2 := Step(w1, BeginInput(calls));
    var w3 := Step(w2, ConnectorCall(n));
    var w4 := Step(w3, Disconnect(n));
    RunKeepsAgree(w0, []);
    StepKeepsAgree(w0, Connect(n));
    StepKeepsAgree(w1, BeginInput(calls));
    StepKeepsAgree(w2, ConnectorCall(n));
    StepKeepsAgree(w3, Disconnect(n));
    assert w4.late == [(n, [])];
    ConnectSafeIff(w4, n);
    var w5 := Step(w4, Connect(n));
    es :| IsRun(w5, es) && NamesFree(w5, es) && Run(w5, es).refused;
    RunCons(w4, Connect(n), es);
    RunCons(w3, Disconnect(n), [Connect(n)] + es);
    RunCons(w2, ConnectorCall(n), [Disconnect(n)] + ([Connect(n)] + es));
    RunCons(w1, BeginInput(calls), [ConnectorCall(n)] + ([Disconnect(n)] + ([Connect(n)] + es)));
    es := [BeginInput(calls)] + ([ConnectorCall(n)] + ([Disconnect(n)] + ([Connect(n)] + es)));
    RunCons(w0, Connect(n), es);
    es := [Connect(n)] + es;
  }

  // ---------------------------------------------------------------- abandoned transactions

  /** A connector has left a transaction open, its reader is done, and nobody has its name. */
  ghost predicate Abandoned(w: World, n: string)
  {
    && T.Inv(w.info) && Joined(w, n) && n !in w.open && !LatePending(w, n)
    && (w.phase.Input? ==> n !in w.phase.calls)
  }

  lemma CallKeepsJoined(t: T.Info, n: string, m: string, call: Q.Effect)
    requires T.Inv(t) && !call.Flush? && m != n
    requires t.initiators.PhaseOf(T.Connector(n)) == Some(T.Joined)
    ensures T.Inv(CallController(t, m, call).0)
    ensures CallController(t, m, call).0.initiators.PhaseOf(T.Connector(n)) == Some(T.Joined)
  {
    CallKeepsInv(t, m, call);
    if CallController(t, m, call).1.Ok? {
      CallMovesOnlyCaller(t, m, call);
    } else {
      RefusalKeeps(t, m, call);
    }
  }

  lemma StepKeepsAbandoned(w: World, n: string, e: Event)
    requires Abandoned(w, n) && Enabled(w, e) && e != Connect(n)
    ensures Abandoned(Step(w, e), n)
  {
    JoinedStays(w.info, n);
    match e
    case ApiStart => T.StepKeepsInv(w.info, T.ApiStart);
    case ApiCommit =>
      T.StepKeepsInv(w.info, T.ApiCommit);
      T.OngoingWitness(w.info.initiators.(api := Some(T.Done)), n);
    case ConnectorCall(m) =>
      var cs := w.phase.calls[m];
      if !cs[0].Flush? {
        CallKeepsJoined(w.info, n, m, cs[0]);
      }
    case Disconnect(m) => LateAfterDisconnect(w, m, n);
    case LateCall(k) =>
      LateKept(w, k, Step(w, e), n);
      var (m, cs) := w.late[k];
      assert LatePending(w, m);
      if !cs[0].Flush? {
        CallKeepsJoined(w.info, n, m, cs[0]);
      }
    case _ =>
  }

  /** The transaction of a connector that was removed before committing, and whose reader has finished,
      never commits in any run in which the name is not used again. */
  lemma {:induction false} AbandonedNeverCommits(w: World, n: string, es: seq<Event>)
    requires Abandoned(w, n) && IsRun(w, es) && Connect(n) !in es
    ensures Abandoned(Run(w, es), n) && !Run(w, es).info.state.Committing?
    decreases |es|
  {
    JoinedStays(w.info, n);
    if es != [] {
      StepKeepsAbandoned(w, n, es[0]);
      AbandonedNeverCommits(Step(w, es[0]), n, es[1..]);
    }
  }
}
