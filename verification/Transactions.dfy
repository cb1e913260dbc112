/** Transaction coordination in the controller.
    The REST API and any number of connectors start, join and commit one shared
    transaction; the circuit thread moves it from idle to started to committing. */
module Transactions {
  import opened Common

  type TransactionId = int

  /** Actual state of the pipeline, set by the circuit thread. */
  datatype State = Idle | Started(id: TransactionId) | Committing(id: TransactionId)

  /** What one initiator has asked for. */
  datatype Phase = Joined | Done

  datatype ConnectorPhase = ConnectorPhase(phase: Phase, tag: Option<string>)

  datatype Error = TransactionInProgress | NoTransactionInProgress

  datatype Status = NoTransaction | InProgress | CommitInProgress

  datatype Initiator = Api | Connector(name: string)

  datatype Initiators = Initiators(
    id: Option<TransactionId>,
    api: Option<Phase>,
    connectors: map<string, ConnectorPhase>)
  {
    /** Some participant has not committed yet. */
    predicate IsOngoing()
    {
      api == Some(Joined) || exists n | n in connectors :: connectors[n].phase == Joined
    }

    predicate IsReadyToCommit()
    {
      (api.Some? || |connectors| != 0) && !IsOngoing()
    }

    function Active(): set<string>
    {
      set n | n in connectors && connectors[n].phase == Joined
    }

    function NumActiveParticipants(): nat
    {
      (if api == Some(Joined) then 1 else 0) + |Active()|
    }

    function CommittedConnectors(): set<string>
    {
      set n | n in connectors && connectors[n].phase == Done
    }

    function PhaseOf(who: Initiator): Option<Phase>
    {
      match who
      case Api => api
      case Connector(n) => if n in connectors then Some(connectors[n].phase) else None
    }
  }

  function Nobody(): Initiators { Initiators(None, None, map[]) }

  datatype Info = Info(last: TransactionId, initiators: Initiators, state: State)

  function Initial(): Info { Info(0, Nobody(), Idle) }

  // ---------------------------------------------------------------- atomic steps

  /** The current transaction's id, or a fresh one. */
  function Allocate(t: Info): (u: Info)
    ensures u.initiators.id.Some?
  {
    if t.initiators.id.Some? then t
    else t.(last := t.last + 1, initiators := t.initiators.(id := Some(t.last + 1)))
  }

  function StartFromApi(t: Info): (Info, Result<TransactionId, Error>)
  {
    if t.initiators.api.Some? || t.state.Committing? then (t, Err(TransactionInProgress))
    else
      var u := Allocate(t);
      (u.(initiators := u.initiators.(api := Some(Joined))), Ok(u.initiators.id.value))
  }

  /** Every initiator committed before the circuit even started the transaction: forget it. */
  function ClearIfUnstarted(t: Info): Info
  {
    if t.initiators.IsReadyToCommit() && t.state.Idle? then t.(initiators := Nobody()) else t
  }

  function CommitFromApi(t: Info): (Info, Result<(), Error>)
  {
    if t.initiators.api != Some(Joined) then (t, Err(NoTransactionInProgress))
    else (ClearIfUnstarted(t.(initiators := t.initiators.(api := Some(Done)))), Ok(()))
  }

  function StartFromConnector(t: Info, name: string, tag: Option<string>): (Info, Result<(), Error>)
  {
    if t.state.Committing? then (t, Err(TransactionInProgress))
    else
      var u := Allocate(t);
      if name in t.initiators.connectors then (u, Err(TransactionInProgress))
      else
        (u.(initiators := u.initiators.(connectors :=
            u.initiators.connectors[name := ConnectorPhase(Joined, tag)])), Ok(()))
  }

  function CommitFromConnector(t: Info, name: string): (Info, Result<(), Error>)
  {
    if t.initiators.PhaseOf(Connector(name)) != Some(Joined) then (t, Err(NoTransactionInProgress))
    else
      var c := t.initiators.connectors;
      (ClearIfUnstarted(t.(initiators := t.initiators.(connectors := c[name := c[name].(phase := Done)]))), Ok(()))
  }

  /** The circuit thread follows the initiators' wishes; returns the new state if it changed. */
  function Advance(t: Info): (Info, Option<State>)
  {
    match (t.initiators.IsOngoing(), t.state)
    case (true, Idle) =>
      if t.initiators.id.Some? then
        var s := Started(t.initiators.id.value);
        (t.(state := s), Some(s))
      else (t, None)
    case (false, Started(id)) => (Info(t.last, Nobody(), Committing(id)), Some(Committing(id)))
    case (false, _) => (t.(initiators := Nobody()), None)
    case (true, _) => (t, None)
  }

  /** `circuit.step` reported that the commit completed. */
  function FinishCommit(t: Info): Info
  {
    if t.state.Committing? then t.(state := Idle) else t
  }

  // ---------------------------------------------------------------- invariant

  ghost predicate Inv(t: Info)
  {
    && 0 <= t.last
    && (t.initiators.id.Some? ==> 0 < t.initiators.id.value == t.last)
    && (t.initiators.id.None? ==> t.initiators == Nobody())
    && match t.state
       case Idle => t.initiators.id.Some? <==> t.initiators.IsOngoing()
       case Started(id) => t.initiators.id == Some(id)
       case Committing(id) => 0 < id == t.last && t.initiators == Nobody()
  }

  /** What `update_transaction_status` asserts of a state, and that it never meets the
      branch it reports as an invalid transaction state. */
  predicate StatusAssertionsHold(t: Info)
  {
    match (t.state, t.initiators.IsOngoing())
    case (Idle, false) => true
    case (Started(id), false) => id != 0
    case (Committing(id), false) => id != 0
    case (Idle, true) => t.initiators.id.Some? && t.initiators.id.value != 0
    case (Started(id), true) => id != 0 && t.initiators.id == Some(id)
    case (Committing(_), true) => false
  }

  datatype Event =
    | ApiStart
    | ApiCommit
    | ConnectorStart(name: string, tag: Option<string>)
    | ConnectorCommit(name: string)
    | CircuitAdvance
    | CircuitCommitted

  function Step(t: Info, e: Event): (Info, bool)
  {
    match e
    case ApiStart => var r := StartFromApi(t); (r.0, r.1.Ok?)
    case ApiCommit => var r := CommitFromApi(t); (r.0, r.1.Ok?)
    case ConnectorStart(n, l) => var r := StartFromConnector(t, n, l); (r.0, r.1.Ok?)
    case ConnectorCommit(n) => var r := CommitFromConnector(t, n); (r.0, r.1.Ok?)
    case CircuitAdvance => (Advance(t).0, true)
    case CircuitCommitted => (FinishCommit(t), t.state.Committing?)
  }

  lemma OngoingWitness(i: Initiators, n: string)
    requires n in i.connectors && i.connectors[n].phase == Joined
    ensures i.IsOngoing() && n in i.Active() && i.NumActiveParticipants() >= 1
  {
  }

  lemma NotReadyIfEmpty(i: Initiators)
    ensures i.IsReadyToCommit() ==> i.api.Some? || i.connectors != map[]
    ensures !i.IsOngoing() && !i.IsReadyToCommit() ==> i.api.None? && i.connectors == map[]
  {
    assert |i.connectors| == 0 <==> i.connectors == map[];
  }

  lemma StepKeepsInv(t: Info, e: Event)
    requires Inv(t)
    ensures Inv(Step(t, e).0)
  {
    match e
    case ApiStart =>
    case ApiCommit =>
      if t.initiators.api == Some(Joined) {
        NotReadyIfEmpty(t.initiators.(api := Some(Done)));
      }
    case ConnectorStart(n, l) =>
      var u := StartFromConnector(t, n, l);
      if u.1.Ok? { OngoingWitness(u.0.initiators, n); }
    case ConnectorCommit(n) =>
      if t.initiators.PhaseOf(Connector(n)) == Some(Joined) {
        var c := t.initiators.connectors;
        var j := t.initiators.(connectors := c[n := c[n].(phase := Done)]);
        assert n in j.connectors;
        NotReadyIfEmpty(j);
      }
    case CircuitAdvance =>
    case CircuitCommitted =>
  }

  // ---------------------------------------------------------------- whole runs

  /** A successful start or commit. */
  datatype Call = Call(id: TransactionId, who: Initiator, commit: bool)

  datatype World = World(info: Info, log: seq<Call>)

  function CallOf(e: Event): Option<(Initiator, bool)>
  {
    match e
    case ApiStart => Some((Api, false))
    case ApiCommit => Some((Api, true))
    case ConnectorStart(n, _) => Some((Connector(n), false))
    case ConnectorCommit(n) => Some((Connector(n), true))
    case CircuitAdvance => None
    case CircuitCommitted => None
  }

  /** One event of a run; a successful call is logged under the id of the transaction it acted on. */
  function StepWorld(w: World, e: Event): World
  {
    var (t, ok) := Step(w.info, e);
    var call := CallOf(e);
    World(t, if call.Some? && ok then w.log + [Call(t.last, call.value.0, call.value.1)] else w.log)
  }

  function Exec(es: seq<Event>): World
  {
    if es == [] then World(Initial(), []) else StepWorld(Exec(es[..|es| - 1]), es[|es| - 1])
  }

  /** Every reachable state satisfies the invariant, so every assertion and unwrap in
      `update_transaction_status` and `advance_transaction_state` holds. */
  lemma {:induction false} ReachableInv(es: seq<Event>)
    ensures Inv(Exec(es).info)
    ensures StatusAssertionsHold(Exec(es).info)
  {
    if es != [] {
      ReachableInv(es[..|es| - 1]);
      StepKeepsInv(Exec(es[..|es| - 1]).info, es[|es| - 1]);
    }
  }

  function CallsFor(log: seq<Call>, id: TransactionId): nat
  {
    if log == [] then 0 else CallsFor(log[..|log| - 1], id) + (if log[|log| - 1].id == id then 1 else 0)
  }

  lemma CallsForSnoc(log: seq<Call>, c: Call, id: TransactionId)
    ensures CallsFor(log + [c], id) == CallsFor(log, id) + (if c.id == id then 1 else 0)
  {
    assert (log + [c])[..|log|] == log;
  }

  /** How many more calls the current transaction can still accept. */
  function Budget(i: Initiators, names: set<string>): int
  {
    2 * (|names - i.connectors.Keys| + (if i.api.None? then 1 else 0)) + i.NumActiveParticipants()
  }

  ghost predicate CallsNamed(es: seq<Event>, names: set<string>)
  {
    forall k | 0 <= k < |es| :: (es[k].ConnectorStart? || es[k].ConnectorCommit?) ==> es[k].name in names
  }

  function LastId(log: seq<Call>): TransactionId
  {
    if log == [] then 0 else log[|log| - 1].id
  }

  /** Ids of logged calls start at 1, never go down and never skip. */
  predicate IdsGrow(log: seq<Call>)
  {
    log == [] ||
    var before, id := log[..|log| - 1], log[|log| - 1].id;
    IdsGrow(before) && 1 <= id && LastId(before) <= id <= LastId(before) + 1
  }

  ghost predicate NoRepeats(log: seq<Call>)
  {
    forall a, b | 0 <= a < b < |log| :: log[a] != log[b]
  }

  ghost predicate IdsWithin(log: seq<Call>, last: TransactionId)
  {
    forall c | c in log :: 1 <= c.id <= last
  }

  ghost predicate LogOrdered(log: seq<Call>, last: TransactionId)
  {
    LastId(log) == last && IdsGrow(log) && NoRepeats(log) && IdsWithin(log, last)
  }

  /** The log tells who joined and who committed the current transaction. */
  ghost predicate LogTells(w: World)
  {
    w.info.initiators.id.Some? ==> forall who, commit ::
      Call(w.info.last, who, commit) in w.log <==>
        w.info.initiators.PhaseOf(who).Some? && (commit ==> w.info.initiators.PhaseOf(who) == Some(Done))
  }

  /** No transaction accepts more than `2 * (|names| + 1)` calls; the current one can still take its budget. */
  ghost predicate LogBounded(w: World, names: set<string>)
  {
    && w.info.initiators.connectors.Keys <= names
    && (forall id :: CallsFor(w.log, id) <= 2 * (|names| + 1))
    && (w.info.initiators.id.Some? ==>
          CallsFor(w.log, w.info.last) + Budget(w.info.initiators, names) == 2 * (|names| + 1))
  }

  ghost predicate LogMatches(w: World, names: set<string>)
  {
    LogOrdered(w.log, w.info.last) && LogTells(w) && LogBounded(w, names)
  }

  lemma NoCallsBeyond(log: seq<Call>, id: TransactionId)
    requires forall c | c in log :: c.id < id
    ensures CallsFor(log, id) == 0
  {
    if log != [] {
      assert log[|log| - 1] in log;
      NoCallsBeyond(log[..|log| - 1], id);
    }
  }

  lemma BudgetOfJoin(i: Initiators, n: string, p: ConnectorPhase, names: set<string>)
    requires n in names && n !in i.connectors && p.phase == Joined
    ensures Budget(i.(connectors := i.connectors[n := p]), names) == Budget(i, names) - 1
  {
    var j := i.(connectors := i.connectors[n := p]);
    assert j.Active() == i.Active() + {n};
    assert names - j.connectors.Keys == (names - i.connectors.Keys) - {n};
  }

  lemma BudgetOfCommit(i: Initiators, n: string, names: set<string>)
    requires n in i.connectors && i.connectors[n].phase == Joined
    ensures Budget(i.(connectors := i.connectors[n := i.connectors[n].(phase := Done)]), names)
            == Budget(i, names) - 1
  {
    var j := i.(connectors := i.connectors[n := i.connectors[n].(phase := Done)]);
    assert j.Active() == i.Active() - {n};
    assert n in i.Active();
    assert j.connectors.Keys == i.connectors.Keys;
  }

  lemma BudgetOfNobody(id: Option<TransactionId>, names: set<string>)
    ensures Budget(Nobody().(id := id), names) == 2 * (|names| + 1)
  {
    assert Nobody().(id := id).Active() == {};
    assert names - Nobody().(id := id).connectors.Keys == names;
  }

  lemma IdsGrowSnoc(log: seq<Call>, c: Call)
    requires IdsGrow(log) && 1 <= c.id && LastId(log) <= c.id <= LastId(log) + 1
    ensures IdsGrow(log + [c]) && LastId(log + [c]) == c.id
  {
    assert (log + [c])[..|log|] == log;
  }

  lemma NoRepeatsSnoc(log: seq<Call>, c: Call)
    requires NoRepeats(log) && c !in log
    ensures NoRepeats(log + [c])
  {
    assert forall a | 0 <= a < |log| :: log[a] in log;
  }

  lemma OrderedSnoc(log: seq<Call>, last: TransactionId, c: Call)
    requires LogOrdered(log, last)
    requires c !in log && 1 <= c.id && last <= c.id <= last + 1
    ensures LogOrdered(log + [c], c.id)
  {
    IdsGrowSnoc(log, c);
    NoRepeatsSnoc(log, c);
  }

  ghost predicate OneMoreCall(t: Info, u: Info, who: Initiator, commit: bool)
  {
    && u.initiators.id == Some(u.last)
    && u.last == (if t.initiators.id.Some? then t.last else t.last + 1)
    && (forall x | x != who :: u.initiators.PhaseOf(x) == t.initiators.PhaseOf(x))
    && t.initiators.PhaseOf(who) == (if commit then Some(Joined) else None)
    && u.initiators.PhaseOf(who) == Some(if commit then Done else Joined)
  }

  lemma TellsSnoc(w: World, u: Info, who: Initiator, commit: bool)
    requires Inv(w.info) && LogOrdered(w.log, w.info.last) && LogTells(w)
    requires OneMoreCall(w.info, u, who, commit)
    ensures Call(u.last, who, commit) !in w.log
    ensures LogTells(World(u, w.log + [Call(u.last, who, commit)]))
  {
    if w.info.initiators.id.None? {
      assert forall c | c in w.log :: c.id < u.last;
      assert forall x :: w.info.initiators.PhaseOf(x) == None;
    } else {
      assert Call(w.info.last, who, commit) !in w.log;
    }
  }

  lemma BoundedSnoc(w: World, u: Info, who: Initiator, commit: bool, names: set<string>)
    requires Inv(w.info) && LogOrdered(w.log, w.info.last) && LogBounded(w, names)
    requires OneMoreCall(w.info, u, who, commit) && u.initiators.connectors.Keys <= names
    requires Budget(u.initiators, names) == Budget(w.info.initiators, names) - 1
    ensures LogBounded(World(u, w.log + [Call(u.last, who, commit)]), names)
  {
    var c := Call(u.last, who, commit);
    if w.info.initiators.id.None? {
      NoCallsBeyond(w.log, u.last);
      BudgetOfNobody(None, names);
    }
    forall id ensures CallsFor(w.log + [c], id) <= 2 * (|names| + 1) {
      CallsForSnoc(w.log, c, id);
    }
    CallsForSnoc(w.log, c, u.last);
  }

  /** A successful call costs exactly one unit of budget and is logged once. */
  lemma RecordCall(w: World, u: Info, who: Initiator, commit: bool, names: set<string>)
    requires LogMatches(w, names) && Inv(w.info)
    requires OneMoreCall(w.info, u, who, commit) && u.initiators.connectors.Keys <= names
    requires Budget(u.initiators, names) == Budget(w.info.initiators, names) - 1
    ensures LogMatches(World(u, w.log + [Call(u.last, who, commit)]), names)
  {
    TellsSnoc(w, u, who, commit);
    OrderedSnoc(w.log, w.info.last, Call(u.last, who, commit));
    BoundedSnoc(w, u, who, commit, names);
  }

  /** The log does not depend on the state, and survives forgetting the initiators. */
  lemma ForgetInitiators(w: World, u: Info, names: set<string>)
    requires LogMatches(w, names)
    requires u.last == w.info.last && (u.initiators == w.info.initiators || u.initiators == Nobody())
    ensures LogMatches(World(u, w.log), names)
  {
  }

  /** What a successful call does to the initiators, before `ClearIfUnstarted`. */
  function AfterCall(t: Info, e: Event): Info
    requires CallOf(e).Some? && Step(t, e).1
  {
    var i := t.initiators;
    match e
    case ApiCommit => t.(initiators := i.(api := Some(Done)))
    case ConnectorCommit(n) =>
      t.(initiators := i.(connectors := i.connectors[n := i.connectors[n].(phase := Done)]))
    case _ => Step(t, e).0
  }

  lemma CallMovesOnePhase(t: Info, e: Event)
    requires Inv(t) && CallOf(e).Some? && Step(t, e).1
    ensures OneMoreCall(t, AfterCall(t, e), CallOf(e).value.0, CallOf(e).value.1)
  {
  }

  lemma CallCostsOne(t: Info, e: Event, names: set<string>)
    requires Inv(t) && CallOf(e).Some? && Step(t, e).1
    requires t.initiators.connectors.Keys <= names
    requires e.ConnectorStart? || e.ConnectorCommit? ==> e.name in names
    ensures AfterCall(t, e).initiators.connectors.Keys <= names
    ensures Budget(AfterCall(t, e).initiators, names) == Budget(t.initiators, names) - 1
  {
    var i := t.initiators;
    match e
    case ApiStart =>
      assert AfterCall(t, e).initiators.Active() == i.Active();
    case ApiCommit =>
      assert AfterCall(t, e).initiators.Active() == i.Active();
    case ConnectorStart(n, tag) =>
      var a := Allocate(t).initiators;
      assert a.Active() == i.Active();
      BudgetOfJoin(a, n, ConnectorPhase(Joined, tag), names);
    case ConnectorCommit(n) =>
      BudgetOfCommit(i, n, names);
  }

  /** A successful call, before a transaction that nobody has started is forgotten. */
  lemma CallKeepsLog(w: World, e: Event, names: set<string>)
    requires LogMatches(w, names) && Inv(w.info) && CallOf(e).Some? && Step(w.info, e).1
    requires e.ConnectorStart? || e.ConnectorCommit? ==> e.name in names
    ensures
      var u, c := AfterCall(w.info, e), CallOf(e).value;
      LogMatches(World(u, w.log + [Call(u.last, c.0, c.1)]), names)
  {
    var u := AfterCall(w.info, e);
    var (who, commit) := CallOf(e).value;
    CallMovesOnePhase(w.info, e);
    CallCostsOne(w.info, e, names);
    RecordCall(w, u, who, commit, names);
  }

  /** Beyond the call itself, a step may only change the state and forget the initiators. */
  lemma StepForgets(t: Info, e: Event)
    requires Inv(t)
    ensures
      var u := Step(t, e).0;
      var v := if CallOf(e).Some? && Step(t, e).1 then AfterCall(t, e) else t;
      u.last == v.last && (u.initiators == v.initiators || u.initiators == Nobody())
  {
  }

  lemma StepKeepsLog(w: World, e: Event, names: set<string>)
    requires LogMatches(w, names) && Inv(w.info)
    requires e.ConnectorStart? || e.ConnectorCommit? ==> e.name in names
    ensures LogMatches(StepWorld(w, e), names)
  {
    var u, ok := Step(w.info, e).0, Step(w.info, e).1;
    StepForgets(w.info, e);
    if CallOf(e).Some? && ok {
      var v := AfterCall(w.info, e);
      var (who, commit) := CallOf(e).value;
      CallKeepsLog(w, e, names);
      ForgetInitiators(World(v, w.log + [Call(v.last, who, commit)]), u, names);
    } else {
      ForgetInitiators(w, u, names);
    }
  }

  /** Over any run whose connectors are among `names`: transaction ids start at 1 and grow by one,
      no initiator starts or commits the same transaction twice, and one transaction accepts at most
      `2 * (|names| + 1)` calls, its remaining budget being `Budget`. */
  lemma {:induction false} CallsPerTransaction(es: seq<Event>, names: set<string>)
    requires CallsNamed(es, names)
    ensures LogMatches(Exec(es), names)
  {
    if es == [] {
      BudgetOfNobody(None, names);
    } else {
      var init := es[..|es| - 1];
      assert CallsNamed(init, names) by {
        forall k | 0 <= k < |init| ensures init[k] == es[k] {}
      }
      CallsPerTransaction(init, names);
      ReachableInv(init);
      StepKeepsLog(Exec(init), es[|es| - 1], names);
    }
  }

  // ---------------------------------------------------------------- what each step decides

  /** Nobody has joined the transaction without committing it. */
  ghost predicate NobodyJoined(i: Initiators)
  {
    forall who: Initiator :: i.PhaseOf(who) != Some(Joined)
  }

  lemma OngoingIffJoined(i: Initiators)
    ensures i.IsOngoing() <==> exists who: Initiator :: i.PhaseOf(who) == Some(Joined)
    ensures forall n :: n in i.CommittedConnectors() <==> i.PhaseOf(Connector(n)) == Some(Done)
  {
    if i.api == Some(Joined) {
      assert i.PhaseOf(Api) == Some(Joined);
    }
    forall n | n in i.connectors && i.connectors[n].phase == Joined
      ensures i.PhaseOf(Connector(n)) == Some(Joined)
    {
    }
  }

  /** A started transaction that every participant has committed starts to commit, under its own id,
      and its initiators are forgotten. */
  lemma AdvanceCommits(t: Info, id: TransactionId)
    requires Inv(t) && t.state == Started(id) && NobodyJoined(t.initiators)
    ensures Advance(t) == (Info(t.last, Nobody(), Committing(id)), Some(Committing(id)))
  {
    OngoingIffJoined(t.initiators);
  }

  /** An idle circuit starts the transaction that somebody has joined, under the id most recently
      allocated, and keeps its initiators. */
  lemma AdvanceStarts(t: Info, who: Initiator)
    requires Inv(t) && t.state == Idle && t.initiators.PhaseOf(who) == Some(Joined)
    ensures Advance(t) == (Info(t.last, t.initiators, Started(t.last)), Some(Started(t.last)))
  {
    OngoingIffJoined(t.initiators);
  }

  /** In every other case the state stays, and exactly then no state is returned. */
  lemma AdvanceReports(t: Info)
    requires Inv(t)
    ensures
      var (u, changed) := Advance(t);
      && changed == (if u.state != t.state then Some(u.state) else None)
      && (u.state == t.state <==> if NobodyJoined(t.initiators) then !t.state.Started? else !t.state.Idle?)
      && u.last == t.last
      && u.initiators == (if NobodyJoined(t.initiators) then Nobody() else t.initiators)
  {
    OngoingIffJoined(t.initiators);
  }

  /** A call succeeds exactly when its initiator can start (it takes no part yet and no commit is
      running) or commit (it has joined). A refused call changes nothing. A successful one moves the
      phase of its initiator alone, except that the last commit of a transaction that the circuit has
      not started forgets the transaction. No call changes the state of the circuit. */
  lemma CallOutcome(t: Info, e: Event)
    requires Inv(t) && CallOf(e).Some?
    ensures
      var (who, commit) := CallOf(e).value;
      var (u, ok) := Step(t, e);
      var phase := t.initiators.PhaseOf(who);
      && (ok <==> if commit then phase == Some(Joined) else phase == None && !t.state.Committing?)
      && (!ok ==> u == t)
      && u.state == t.state
      && (ok && !LastCommit(t, who, commit) ==> OneMoreCall(t, u, who, commit))
      && (ok && LastCommit(t, who, commit) ==> u == Info(t.last, Nobody(), Idle))
  {
    var (who, commit) := CallOf(e).value;
    var (u, ok) := Step(t, e);
    if ok {
      CallMovesOnePhase(t, e);
      if commit {
        var i := AfterCall(t, e).initiators;
        OngoingIffJoined(i);
        NotReadyIfEmpty(i);
        assert i.IsOngoing() <==> exists x: Initiator :: x != who && t.initiators.PhaseOf(x) == Some(Joined);
      }
    }
  }

  /** A commit by the only participant left of a transaction that has not started. */
  ghost predicate LastCommit(t: Info, who: Initiator, commit: bool)
  {
    commit && t.state.Idle? && forall x: Initiator | x != who :: t.initiators.PhaseOf(x) != Some(Joined)
  }

  /** The id returned to the client is the one under which its start is logged. */
  lemma StartReturnsLoggedId(w: World)
    requires Inv(w.info) && StartFromApi(w.info).1.Ok?
    ensures StepWorld(w, ApiStart).log == w.log + [Call(StartFromApi(w.info).1.value, Api, false)]
    ensures StepWorld(w, ApiStart).info.initiators.id == Some(StartFromApi(w.info).1.value)
  {
    CallOutcome(w.info, ApiStart);
  }

  /** A connector's tag is kept with its phase from its start on; no other call changes it. */
  lemma TagsKept(t: Info, e: Event, n: string)
    requires Inv(t) && CallOf(e).Some? && n in Step(t, e).0.initiators.connectors
    ensures
      var tag := Step(t, e).0.initiators.connectors[n].tag;
      if e.ConnectorStart? && e.name == n && Step(t, e).1 then tag == e.tag
      else n in t.initiators.connectors && tag == t.initiators.connectors[n].tag
  {
  }

  /** The state that `Advance` returned in response to an event, if any. */
  function Reported(t: Info, e: Event): seq<State>
  {
    if e.CircuitAdvance? && Advance(t).1.Some? then [Advance(t).1.value] else []
  }

  /** What the circuit was told over a run. */
  function Reports(es: seq<Event>): seq<State>
  {
    if es == [] then []
    else Reports(es[..|es| - 1]) + Reported(Exec(es[..|es| - 1]).info, es[|es| - 1])
  }

  function LastReport(reports: seq<State>): State
  {
    if reports == [] then Idle else reports[|reports| - 1]
  }

  function IdOf(s: State): TransactionId
  {
    if s.Idle? then 0 else s.id
  }

  /** Each commit follows the start of the same transaction; each start follows the commit of an
      earlier transaction, or is the first report. */
  predicate Alternating(reports: seq<State>)
  {
    reports == [] ||
    var before, s := LastReport(reports[..|reports| - 1]), reports[|reports| - 1];
    && Alternating(reports[..|reports| - 1])
    && match s
       case Idle => false
       case Started(id) => !before.Started? && IdOf(before) < id
       case Committing(id) => before == Started(id)
  }

  lemma AlternatingSnoc(reports: seq<State>, s: State)
    requires Alternating(reports)
    requires s.Started? ==> !LastReport(reports).Started? && IdOf(LastReport(reports)) < s.id
    requires s.Committing? ==> LastReport(reports) == Started(s.id)
    requires s != Idle
    ensures Alternating(reports + [s]) && LastReport(reports + [s]) == s
  {
    assert (reports + [s])[..|reports|] == reports;
  }

  /** The last report is the transaction in progress; while idle, it is a commit of an earlier
      transaction than the one somebody is asking for. */
  ghost predicate LastReportTells(t: Info, last: State)
  {
    match t.state
    case Idle => !last.Started? && (if t.initiators.id.Some? then IdOf(last) < t.last else IdOf(last) <= t.last)
    case _ => last == t.state
  }

  /** The state that `Advance` returns follows the reports so far, and is then the last one. */
  lemma AdvanceKeepsReports(t: Info, last: State)
    requires Inv(t) && LastReportTells(t, last)
    ensures
      var (u, changed) := Advance(t);
      && LastReportTells(u, if changed.Some? then changed.value else last)
      && match changed
         case None => true
         case Some(Idle) => false
         case Some(Started(id)) => !last.Started? && IdOf(last) < id
         case Some(Committing(id)) => last == Started(id)
  {
  }

  lemma CallKeepsReports(t: Info, e: Event, last: State)
    requires Inv(t) && CallOf(e).Some? && LastReportTells(t, last)
    ensures LastReportTells(Step(t, e).0, last)
  {
    CallOutcome(t, e);
  }

  lemma StepKeepsReports(t: Info, e: Event, reports: seq<State>)
    requires Inv(t) && Alternating(reports) && LastReportTells(t, LastReport(reports))
    ensures Alternating(reports + Reported(t, e))
    ensures LastReportTells(Step(t, e).0, LastReport(reports + Reported(t, e)))
  {
    if e.CircuitAdvance? {
      AdvanceKeepsReports(t, LastReport(reports));
    }
    if Reported(t, e) != [] {
      AlternatingSnoc(reports, Advance(t).1.value);
    } else {
      assert reports + Reported(t, e) == reports;
      if CallOf(e).Some? {
        CallKeepsReports(t, e, LastReport(reports));
      }
    }
  }

  /** Over every run the circuit starts transactions one at a time and commits each before the next;
      the transaction in progress is the one reported last. */
  lemma {:induction false} ReportsAlternate(es: seq<Event>)
    ensures Alternating(Reports(es)) && LastReportTells(Exec(es).info, LastReport(Reports(es)))
  {
    if es != [] {
      var before := es[..|es| - 1];
      ReportsAlternate(before);
      ReachableInv(before);
      StepKeepsReports(Exec(before).info, es[|es| - 1], Reports(before));
    }
  }

  /** Once everyone has committed, the circuit's next look at the transaction and the end of its
      commit leave it idle with nobody taking part, after any run. A transaction that had been
      started is reported as committing. */
  lemma EveryoneCommittedEnds(es: seq<Event>)
    requires NobodyJoined(Exec(es).info.initiators)
    ensures
      var w := Exec(es);
      Exec(es + [CircuitAdvance, CircuitCommitted]) == World(Info(w.info.last, Nobody(), Idle), w.log)
    ensures Exec(es).info.state.Started?
      ==> Reports(es + [CircuitAdvance, CircuitCommitted]) == Reports(es) + [Committing(Exec(es).info.state.id)]
  {
    var t := Exec(es).info;
    ReachableInv(es);
    var one := es + [CircuitAdvance];
    var two := es + [CircuitAdvance, CircuitCommitted];
    assert one[..|es|] == es && two[..|es| + 1] == one;
    AdvanceReports(t);
    if t.state.Started? {
      AdvanceCommits(t, t.state.id);
    }
  }

  // ---------------------------------------------------------------- the shared object

  /** The mutex-protected record itself. Each method is one critical section; each one leaves the
      object in the state given by the step function of the same name, keeps the invariant, and so
      may run every assertion of `UpdateTransactionStatus`. */
  class TransactionInfo {
    var last: TransactionId
    var initiators: Initiators
    var state: State

    ghost function Value(): Info
      reads this
    {
      Info(last, initiators, state)
    }

    constructor ()
      ensures Value() == Initial() && Inv(Value())
    {
      last, initiators, state := 0, Nobody(), Idle;
    }

    /** Published status. Zero means that there is no transaction. */
    method UpdateTransactionStatus() returns (id: TransactionId, status: Status)
      requires Inv(Value())
      ensures status == NoTransaction <==> state.Idle? && initiators == Nobody()
      ensures status == InProgress <==> initiators.IsOngoing()
      ensures id == (if status == NoTransaction then 0 else last)
      ensures status != NoTransaction ==> id > 0
    {
      var ongoing := initiators.IsOngoing();
      match state {
        case Idle =>
          if ongoing {
            assert initiators.id.Some?;
            id, status := initiators.id.value, InProgress;
            assert id != 0;
          } else {
            id, status := 0, NoTransaction;
          }
        case Started(tid) =>
          assert tid != 0;
          assert ongoing ==> initiators.id == Some(tid);
          id, status := tid, if ongoing then InProgress else CommitInProgress;
        case Committing(tid) =>
          assert !ongoing; // the source's "invalid transaction state" branch is dead
          assert tid != 0;
          id, status := tid, CommitInProgress;
      }
    }

    method StartTransactionFromApi() returns (r: Result<TransactionId, Error>)
      requires Inv(Value())
      modifies this
      ensures Inv(Value()) && (Value(), r) == StartFromApi(old(Value()))
      ensures r.Ok? <==> old(initiators).PhaseOf(Api) == None && !old(state).Committing?
      ensures r.Ok? ==> OneMoreCall(old(Value()), Value(), Api, false) && r.value == last
      ensures r.Err? ==> r.error == TransactionInProgress && Value() == old(Value())
    {
      CallOutcome(Value(), ApiStart);
      StepKeepsInv(Value(), ApiStart);
      if initiators.api.Some? || state.Committing? {
        return Err(TransactionInProgress);
      }
      if initiators.id.None? {
        last := last + 1;
        initiators := initiators.(id := Some(last));
      }
      initiators := initiators.(api := Some(Joined));
      r := Ok(initiators.id.value);
      var _, _ := UpdateTransactionStatus();
    }

    method StartCommitTransactionFromApi() returns (r: Result<(), Error>)
      requires Inv(Value())
      modifies this
      ensures Inv(Value()) && (Value(), r) == CommitFromApi(old(Value()))
      ensures r.Ok? <==> old(initiators).PhaseOf(Api) == Some(Joined)
      ensures
        r.Ok? ==>
          if LastCommit(old(Value()), Api, true) then initiators == Nobody()
          else OneMoreCall(old(Value()), Value(), Api, true)
      ensures r.Err? ==> r.error == NoTransactionInProgress && Value() == old(Value())
    {
      CallOutcome(Value(), ApiCommit);
      StepKeepsInv(Value(), ApiCommit);
      if initiators.api != Some(Joined) {
        return Err(NoTransactionInProgress);
      }
      initiators := initiators.(api := Some(Done));
      if initiators.IsReadyToCommit() && state.Idle? {
        initiators := Nobody();
      }
      r := Ok(());
      var _, _ := UpdateTransactionStatus();
    }

    method StartTransactionFromConnector(name: string, tag: Option<string>) returns (r: Result<(), Error>)
      requires Inv(Value())
      modifies this
      ensures Inv(Value()) && (Value(), r) == StartFromConnector(old(Value()), name, tag)
      ensures r.Ok? <==> old(initiators).PhaseOf(Connector(name)) == None && !old(state).Committing?
      ensures r.Ok? ==> OneMoreCall(old(Value()), Value(), Connector(name), false)
      ensures r.Err? ==> r.error == TransactionInProgress && Value() == old(Value())
    {
      CallOutcome(Value(), ConnectorStart(name, tag));
      StepKeepsInv(Value(), ConnectorStart(name, tag));
      if state.Committing? {
        return Err(TransactionInProgress);
      }
      if initiators.id.None? {
        assert !initiators.IsOngoing();
        last := last + 1;
        initiators := initiators.(id := Some(last));
      }
      if name in initiators.connectors {
        return Err(TransactionInProgress);
      }
      initiators := initiators.(connectors := initiators.connectors[name := ConnectorPhase(Joined, tag)]);
      r := Ok(());
      var _, _ := UpdateTransactionStatus();
    }

    method CommitTransactionFromConnector(name: string) returns (r: Result<(), Error>)
      requires Inv(Value())
      modifies this
      ensures Inv(Value()) && (Value(), r) == CommitFromConnector(old(Value()), name)
      ensures r.Ok? <==> old(initiators).PhaseOf(Connector(name)) == Some(Joined)
      ensures
        r.Ok? ==>
          if LastCommit(old(Value()), Connector(name), true) then initiators == Nobody()
          else OneMoreCall(old(Value()), Value(), Connector(name), true)
      ensures r.Err? ==> r.error == NoTransactionInProgress && Value() == old(Value())
    {
      CallOutcome(Value(), ConnectorCommit(name));
      StepKeepsInv(Value(), ConnectorCommit(name));
      var active := initiators.NumActiveParticipants();
      if name !in initiators.connectors {
        return Err(NoTransactionInProgress);
      }
      assert initiators.id.Some?;
      if initiators.connectors[name].phase != Joined {
        return Err(NoTransactionInProgress);
      }
      OngoingWitness(initiators, name);
      var remaining: nat := active - 1; // logged by the source; cannot underflow
      initiators := initiators.(connectors :=
        initiators.connectors[name := initiators.connectors[name].(phase := Done)]);
      if initiators.IsReadyToCommit() && state.Idle? {
        initiators := Nobody();
      }
      r := Ok(());
      var _, _ := UpdateTransactionStatus();
    }

    method AdvanceTransactionState() returns (changed: Option<State>)
      requires Inv(Value())
      modifies this
      ensures Inv(Value()) && (Value(), changed) == Advance(old(Value()))
      ensures old(state).Started? && NobodyJoined(old(initiators))
        ==> state == Committing(old(state).id) && changed == Some(state)
      ensures old(state).Idle? && !NobodyJoined(old(initiators)) ==> state == Started(last) && changed == Some(state)
      ensures initiators == if NobodyJoined(old(initiators)) then Nobody() else old(initiators)
      ensures changed.None? <==> state == old(state)
    {
      AdvanceReports(Value());
      StepKeepsInv(Value(), CircuitAdvance);
      changed := None;
      match (initiators.IsOngoing(), state) {
        case (true, Idle) =>
          state := Started(initiators.id.value);
          changed := Some(state);
        case (false, Started(tid)) =>
          state := Committing(tid);
          initiators := Nobody();
          changed := Some(state);
        case (false, _) =>
          initiators := Nobody();
        case _ =>
      }
      var _, _ := UpdateTransactionStatus();
    }

    method SetCommitted()
      requires Inv(Value()) && state.Committing?
      modifies this
      ensures Inv(Value()) && Value() == FinishCommit(old(Value()))
    {
      StepKeepsInv(Value(), CircuitCommitted);
      state := Idle;
      var _, _ := UpdateTransactionStatus();
    }
  }
}
