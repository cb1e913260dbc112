/** The journal and `FtState`, which writes, checks and replays journal records. Besides the input of
    a step, a record logs how the set of input endpoints and their paused state changed. */
module FaultTolerance {
  import opened Common
  import Recovery

  type Id = nat
  type Name = Recovery.Name
  type InputLog = Recovery.InputLog

  datatype Config = Config(paused: bool, startAfter: bool)
  {
    /** A new endpoint starts paused if told so, or if it waits for others to finish. */
    predicate StartsPaused()
    {
      paused || startAfter
    }
  }

  datatype Status = Status(name: Name, config: Config, paused: bool)

  datatype StepMetadata = StepMetadata(
    step: nat,
    removeInputs: set<Name>,
    addInputs: map<Name, Config>,
    changedInputs: map<Name, bool>,
    inputLogs: map<Name, InputLog>)

  /** `MissingReplay` is where the original panics. */
  datatype Error = WrongStep | UnknownEndpoint | ReplayFailure | MissingReplay

  // ---------------------------------------------------------------- endpoint changes

  /** Names are unique, and an endpoint never changes its name. */
  ghost predicate Consistent(known: map<Id, (Name, bool)>, inputs: map<Id, Status>)
  {
    && (forall a, b | a in known && b in known && known[a].0 == known[b].0 :: a == b)
    && (forall a, b | a in inputs && b in inputs && inputs[a].name == inputs[b].name :: a == b)
    && (forall a | a in known && a in inputs :: known[a].0 == inputs[a].name)
  }

  function Current(inputs: map<Id, Status>): map<Id, (Name, bool)>
  {
    map a | a in inputs :: (inputs[a].name, inputs[a].paused)
  }

  ghost predicate Named(endpoints: map<Id, (Name, bool)>, n: Name)
  {
    exists a | a in endpoints :: endpoints[a].0 == n
  }

  /** A table with the names of some endpoints. */
  ghost predicate Lists(m: map<Name, bool>, endpoints: map<Id, (Name, bool)>)
  {
    forall n :: n in m <==> Named(endpoints, n)
  }

  /** A table that also has their paused flags right. */
  ghost predicate Describes(m: map<Name, bool>, endpoints: map<Id, (Name, bool)>)
  {
    Lists(m, endpoints) && forall a | a in endpoints :: m[endpoints[a].0] == endpoints[a].1
  }

  /** Names of the endpoints, among those `seen`, that are no longer there. */
  ghost predicate LogsRemovals(removed: set<Name>, known: map<Id, (Name, bool)>, inputs: map<Id, Status>, seen: set<Id>)
    requires seen <= known.Keys
  {
    forall n :: n in removed <==> exists a | a in seen :: a !in inputs && known[a].0 == n
  }

  predicate Changed(known: map<Id, (Name, bool)>, inputs: map<Id, Status>, a: Id)
    requires a in known
  {
    a in inputs && known[a].1 != inputs[a].paused
  }

  ghost predicate LogsChanges(changed: map<Name, bool>, known: map<Id, (Name, bool)>, inputs: map<Id, Status>,
                              seen: set<Id>)
    requires seen <= known.Keys
  {
    && (forall n :: n in changed <==> exists a | a in seen :: Changed(known, inputs, a) && known[a].0 == n)
    && (forall a | a in seen && Changed(known, inputs, a) && known[a].0 in changed ::
          changed[known[a].0] == inputs[a].paused)
  }

  ghost predicate LogsAdditions(added: map<Name, Config>, known: map<Id, (Name, bool)>, inputs: map<Id, Status>,
                                seen: set<Id>)
    requires seen <= inputs.Keys
  {
    && (forall n :: n in added <==> exists a | a in seen :: a !in known && inputs[a].name == n)
    && (forall a | a in seen && a !in known && inputs[a].name in added :: added[inputs[a].name] == inputs[a].config)
  }

  /** The record tells how `known` became `inputs`. */
  ghost predicate Tells(r: StepMetadata, known: map<Id, (Name, bool)>, inputs: map<Id, Status>)
  {
    && LogsRemovals(r.removeInputs, known, inputs, known.Keys)
    && LogsChanges(r.changedInputs, known, inputs, known.Keys)
    && LogsAdditions(r.addInputs, known, inputs, inputs.Keys)
  }

  /** What `replay_step` does to the endpoints: first removals, then additions, then pauses and
      resumptions. Fails on an unknown or a duplicate name. */
  function ReplayChanges(m: map<Name, bool>, r: StepMetadata): Option<map<Name, bool>>
  {
    if !(r.removeInputs <= m.Keys) then None
    else
      var kept := m - r.removeInputs;
      if kept.Keys * r.addInputs.Keys != {} then None
      else
        var all := kept + map n | n in r.addInputs :: r.addInputs[n].StartsPaused();
        if r.changedInputs.Keys <= all.Keys then Some(all + r.changedInputs) else None
  }

  lemma CurrentNames(inputs: map<Id, Status>, n: Name)
    ensures Named(Current(inputs), n) <==> exists a | a in inputs :: inputs[a].name == n
  {
    var now := Current(inputs);
    if a :| a in inputs && inputs[a].name == n {
      assert now[a].0 == n;
    }
  }

  /** What is left after the removals are the endpoints that stayed. */
  lemma KeptNames(r: StepMetadata, known: map<Id, (Name, bool)>, inputs: map<Id, Status>, m: map<Name, bool>, n: Name)
    requires Consistent(known, inputs) && Lists(m, known)
    requires LogsRemovals(r.removeInputs, known, inputs, known.Keys)
    ensures n in m - r.removeInputs <==> exists a | a in inputs :: a in known && inputs[a].name == n
  {
    if n in m - r.removeInputs {
      var a :| a in known && known[a].0 == n;
      assert a in inputs && inputs[a].name == n;
    }
    if a :| a in inputs && a in known && inputs[a].name == n {
      assert known[a].0 == n;
    }
  }

  /** Replaying the record succeeds and ends with the endpoints `inputs`. */
  ghost predicate RestoresNames(m: map<Name, bool>, r: StepMetadata, inputs: map<Id, Status>)
  {
    ReplayChanges(m, r).Some? && Lists(ReplayChanges(m, r).value, Current(inputs))
  }

  /** Replaying a record succeeds and rebuilds the endpoints that were there when it was written if and
      only if it starts from the endpoints of the record before, whatever their paused flags. */
  lemma ReplayRestoresNames(
      r: StepMetadata, known: map<Id, (Name, bool)>, inputs: map<Id, Status>, m: map<Name, bool>)
    requires Consistent(known, inputs) && Tells(r, known, inputs)
    ensures RestoresNames(m, r, inputs) <==> Lists(m, known)
  {
    if Lists(m, known) {
      NamesRestored(r, known, inputs, m);
    }
    if RestoresNames(m, r, inputs) {
      forall n ensures n in m <==> Named(known, n) {
        NamesNeeded(r, known, inputs, m, n);
      }
    }
  }

  /** A known endpoint has either stayed or been removed. */
  lemma StayedOrRemoved(r: StepMetadata, known: map<Id, (Name, bool)>, inputs: map<Id, Status>, n: Name)
    requires Consistent(known, inputs) && Tells(r, known, inputs)
    ensures Named(known, n) <==> n in r.removeInputs || (Named(Current(inputs), n) && n !in r.addInputs)
  {
    CurrentNames(inputs, n);
    if Named(known, n) {
      var a :| a in known && known[a].0 == n;
      if a in inputs {
        assert inputs[a].name == n;
      }
    }
    if Named(Current(inputs), n) && n !in r.addInputs {
      var a :| a in inputs && inputs[a].name == n;
      assert a in known && known[a].0 == n;
    }
  }

  lemma NamesNeeded(
      r: StepMetadata, known: map<Id, (Name, bool)>, inputs: map<Id, Status>, m: map<Name, bool>, n: Name)
    requires Consistent(known, inputs) && Tells(r, known, inputs) && RestoresNames(m, r, inputs)
    ensures n in m <==> Named(known, n)
  {
    StayedOrRemoved(r, known, inputs, n);
    ReplayedName(m, r, n);
    assert n in ReplayChanges(m, r).value <==> Named(Current(inputs), n);
  }

  lemma ReplayedName(m: map<Name, bool>, r: StepMetadata, n: Name)
    requires ReplayChanges(m, r).Some?
    ensures n in ReplayChanges(m, r).value <==> (n in m && n !in r.removeInputs) || n in r.addInputs
    ensures n in r.removeInputs ==> n in m
    ensures n in r.addInputs ==> n !in m || n in r.removeInputs
    ensures n in ReplayChanges(m, r).value ==>
              ReplayChanges(m, r).value[n] ==
                if n in r.changedInputs then r.changedInputs[n]
                else if n in r.addInputs then r.addInputs[n].paused || r.addInputs[n].startAfter
                else m[n]
  {
    var kept := m - r.removeInputs;
    assert n in kept && n in r.addInputs ==> n in kept.Keys * r.addInputs.Keys;
  }

  lemma NamesRestored(
      r: StepMetadata, known: map<Id, (Name, bool)>, inputs: map<Id, Status>, m: map<Name, bool>)
    requires Consistent(known, inputs) && Tells(r, known, inputs) && Lists(m, known)
    ensures RestoresNames(m, r, inputs)
  {
    var kept := m - r.removeInputs;
    forall n
      ensures n in kept || n in r.addInputs <==> Named(Current(inputs), n)
      ensures !(n in kept && n in r.addInputs)
    {
      KeptOrAdded(r, known, inputs, m, n);
    }
    forall n | n in r.changedInputs ensures n in kept {
      var a :| a in known && Changed(known, inputs, a) && known[a].0 == n;
      assert inputs[a].name == n;
      KeptNames(r, known, inputs, m, n);
    }
    assert forall n | n in r.removeInputs :: Named(known, n);
    ReplayKeys(m, r);
  }

  lemma ReplayKeys(m: map<Name, bool>, r: StepMetadata)
    requires r.removeInputs <= m.Keys && (m - r.removeInputs).Keys !! r.addInputs.Keys
    requires r.changedInputs.Keys <= (m - r.removeInputs).Keys
    ensures ReplayChanges(m, r).Some?
    ensures ReplayChanges(m, r).value.Keys == (m - r.removeInputs).Keys + r.addInputs.Keys
  {
  }

  lemma KeptOrAdded(r: StepMetadata, known: map<Id, (Name, bool)>, inputs: map<Id, Status>, m: map<Name, bool>, n: Name)
    requires Consistent(known, inputs) && Tells(r, known, inputs) && Lists(m, known)
    ensures n in m - r.removeInputs || n in r.addInputs <==> Named(Current(inputs), n)
    ensures !(n in m - r.removeInputs && n in r.addInputs)
  {
    KeptNames(r, known, inputs, m, n);
    CurrentNames(inputs, n);
  }

  /** The paused flag that endpoint `a` gets from a replay: a logged change, or else what it had, or
      what a new endpoint's configuration says. */
  ghost predicate Restored(m: map<Name, bool>, known: map<Id, (Name, bool)>, inputs: map<Id, Status>, a: Id)
    requires a in inputs
  {
    if a !in known then inputs[a].config.StartsPaused()
    else if Changed(known, inputs, a) then inputs[a].paused
    else inputs[a].name in m && m[inputs[a].name]
  }

  lemma ReplayedFlag(r: StepMetadata, known: map<Id, (Name, bool)>, inputs: map<Id, Status>, m: map<Name, bool>, a: Id)
    requires Consistent(known, inputs) && Tells(r, known, inputs) && Lists(m, known) && a in inputs
    ensures ReplayChanges(m, r).Some? && inputs[a].name in ReplayChanges(m, r).value
    ensures ReplayChanges(m, r).value[inputs[a].name] == Restored(m, known, inputs, a)
    ensures a in known ==> inputs[a].name in m
  {
    NamesRestored(r, known, inputs, m);
    var n := inputs[a].name;
    CurrentNames(inputs, n);
    if a in known {
      FlagOfKept(r, known, inputs, a);
      assert known[a].0 == n;
    } else {
      FlagOfAdded(r, known, inputs, a);
    }
  }

  lemma FlagOfKept(r: StepMetadata, known: map<Id, (Name, bool)>, inputs: map<Id, Status>, a: Id)
    requires Consistent(known, inputs) && Tells(r, known, inputs) && a in inputs && a in known
    ensures
      var n := inputs[a].name;
      n !in r.addInputs && (n in r.changedInputs <==> Changed(known, inputs, a))
      && (n in r.changedInputs ==> r.changedInputs[n] == inputs[a].paused)
  {
    assert known[a].0 == inputs[a].name;
  }

  lemma FlagOfAdded(r: StepMetadata, known: map<Id, (Name, bool)>, inputs: map<Id, Status>, a: Id)
    requires Consistent(known, inputs) && Tells(r, known, inputs) && a in inputs && a !in known
    ensures
      var n := inputs[a].name;
      n !in r.changedInputs && n in r.addInputs && r.addInputs[n] == inputs[a].config
  {
  }

  /** The paused state of one endpoint can be told from a record: either the endpoint was there, and its
      flag was right before or has changed, or it is new and its configuration agrees with it. */
  ghost predicate FlagTold(m: map<Name, bool>, known: map<Id, (Name, bool)>, inputs: map<Id, Status>, a: Id)
    requires a in inputs
  {
    if a in known then Changed(known, inputs, a) || (inputs[a].name in m && m[inputs[a].name] == known[a].1)
    else inputs[a].paused == (inputs[a].config.paused || inputs[a].config.startAfter)
  }

  /** Replaying a record succeeds and rebuilds the endpoints with their paused state if and only if it
      starts from the endpoints of the record before and each flag can be told: only the configuration
      of a new endpoint is logged, so a pause or resumption before the record was written is forgotten. */
  lemma ReplayRestoresEndpoints(
      r: StepMetadata, known: map<Id, (Name, bool)>, inputs: map<Id, Status>, m: map<Name, bool>)
    requires Consistent(known, inputs) && Tells(r, known, inputs)
    ensures ReplayChanges(m, r).Some? && Describes(ReplayChanges(m, r).value, Current(inputs))
            <==> Lists(m, known) && forall a | a in inputs :: FlagTold(m, known, inputs, a)
  {
    ReplayRestoresNames(r, known, inputs, m);
    if Lists(m, known) {
      FlagsToldIff(r, known, inputs, m);
    }
  }

  lemma FlagsToldIff(
      r: StepMetadata, known: map<Id, (Name, bool)>, inputs: map<Id, Status>, m: map<Name, bool>)
    requires Consistent(known, inputs) && Tells(r, known, inputs) && Lists(m, known)
    ensures RestoresNames(m, r, inputs)
    ensures Describes(ReplayChanges(m, r).value, Current(inputs))
            <==> forall a | a in inputs :: FlagTold(m, known, inputs, a)
  {
    NamesRestored(r, known, inputs, m);
    var v := ReplayChanges(m, r).value;
    forall a | a in inputs
      ensures inputs[a].name in v
      ensures v[inputs[a].name] == inputs[a].paused <==> FlagTold(m, known, inputs, a)
    {
      ReplayedFlag(r, known, inputs, m, a);
    }
    DescribesIff(v, inputs);
  }

  lemma DescribesIff(v: map<Name, bool>, inputs: map<Id, Status>)
    requires Lists(v, Current(inputs)) && forall a | a in inputs :: inputs[a].name in v
    ensures Describes(v, Current(inputs)) <==> forall a | a in inputs :: v[inputs[a].name] == inputs[a].paused
  {
    var now := Current(inputs);
    assert forall a | a in inputs :: now[a] == (inputs[a].name, inputs[a].paused);
  }

  // ---------------------------------------------------------------- whole journals

  /** Successive records, and the endpoints before the first and after each of them. */
  ghost predicate Chronicle(rs: seq<StepMetadata>, ss: seq<map<Id, Status>>)
  {
    && |ss| == |rs| + 1
    && forall k | 0 <= k < |rs| :: Recorded(rs[k], ss[k], ss[k + 1])
  }

  ghost predicate Recorded(r: StepMetadata, before: map<Id, Status>, after: map<Id, Status>)
  {
    Consistent(Current(before), after) && Tells(r, Current(before), after)
  }

  function ReplayAll(m: map<Name, bool>, rs: seq<StepMetadata>): Option<map<Name, bool>>
  {
    if rs == [] then Some(m)
    else
      match ReplayAll(m, rs[..|rs| - 1])
      case None => None
      case Some(before) => ReplayChanges(before, rs[|rs| - 1])
  }

  /** Whether the flag of endpoint `a` comes out right: a record logs a change of it, or it was right
      when the endpoint first appeared, in the table or by its configuration. */
  ghost predicate FlagRight(m: map<Name, bool>, ss: seq<map<Id, Status>>, a: Id)
    requires ss != [] && a in ss[|ss| - 1]
  {
    var now := ss[|ss| - 1][a];
    if |ss| == 1 then now.name in m && m[now.name] == now.paused
    else
      var earlier := ss[..|ss| - 1];
      if a in earlier[|earlier| - 1] then
        earlier[|earlier| - 1][a].paused != now.paused || FlagRight(m, earlier, a)
      else now.paused == (now.config.paused || now.config.startAfter)
  }

  ghost predicate Rebuilt(m: map<Name, bool>, ss: seq<map<Id, Status>>, v: map<Name, bool>)
    requires ss != []
  {
    var last := ss[|ss| - 1];
    && Lists(v, Current(last))
    && forall a | a in last ::
         last[a].name in v && (v[last[a].name] == last[a].paused <==> FlagRight(m, ss, a))
  }

  /** Replaying a whole journal succeeds and ends with the last endpoints. */
  ghost predicate AllNamesRestored(m: map<Name, bool>, rs: seq<StepMetadata>, last: map<Id, Status>)
  {
    ReplayAll(m, rs).Some? && Lists(ReplayAll(m, rs).value, Current(last))
  }

  /** Replaying a whole journal succeeds and rebuilds the endpoints if and only if it starts from the
      endpoints that were there before its first record; then each paused flag comes out right if and
      only if `FlagRight` says so, whatever other flags were forgotten. */
  lemma JournalRestoresEndpoints(m: map<Name, bool>, rs: seq<StepMetadata>, ss: seq<map<Id, Status>>)
    requires Chronicle(rs, ss)
    ensures AllNamesRestored(m, rs, ss[|rs|]) <==> Lists(m, Current(ss[0]))
    ensures Lists(m, Current(ss[0])) ==> Rebuilt(m, ss, ReplayAll(m, rs).value)
  {
    JournalNames(m, rs, ss);
    if Lists(m, Current(ss[0])) {
      JournalRebuilds(m, rs, ss);
    }
  }

  /** A checkpoint records the endpoints `at` the time it begins, and replay starts from them. The
      journal can be replayed from it if and only if those are the endpoints of the last record before
      it: none has come or gone in between. */
  lemma CheckpointReplayable(m: map<Name, bool>, at: map<Id, Status>, rs: seq<StepMetadata>, ss: seq<map<Id, Status>>)
    requires Chronicle(rs, ss) && Describes(m, Current(at))
    ensures AllNamesRestored(m, rs, ss[|rs|])
            <==> forall n :: Named(Current(at), n) <==> Named(Current(ss[0]), n)
  {
    JournalNames(m, rs, ss);
  }

  lemma {:induction false} JournalNames(m: map<Name, bool>, rs: seq<StepMetadata>, ss: seq<map<Id, Status>>)
    requires Chronicle(rs, ss)
    ensures AllNamesRestored(m, rs, ss[|rs|]) <==> Lists(m, Current(ss[0]))
  {
    if rs != [] {
      var k := |rs| - 1;
      ChroniclePrefix(rs, ss);
      JournalNames(m, rs[..k], ss[..k + 1]);
      match ReplayAll(m, rs[..k]) {
        case None =>
        case Some(x) => ReplayRestoresNames(rs[k], Current(ss[k]), ss[k + 1], x);
      }
    }
  }

  lemma ChroniclePrefix(rs: seq<StepMetadata>, ss: seq<map<Id, Status>>)
    requires Chronicle(rs, ss) && rs != []
    ensures var k := |rs| - 1; Chronicle(rs[..k], ss[..k + 1]) && Recorded(rs[k], ss[k], ss[k + 1])
  {
    var k := |rs| - 1;
    forall i | 0 <= i < k ensures Recorded(rs[..k][i], ss[..k + 1][i], ss[..k + 1][i + 1]) {
      assert Recorded(rs[i], ss[i], ss[i + 1]);
    }
  }

  lemma {:induction false} JournalRebuilds(m: map<Name, bool>, rs: seq<StepMetadata>, ss: seq<map<Id, Status>>)
    requires Chronicle(rs, ss) && Lists(m, Current(ss[0]))
    ensures ReplayAll(m, rs).Some? && Rebuilt(m, ss, ReplayAll(m, rs).value)
  {
    if rs == [] {
      forall a | a in ss[0] ensures ss[0][a].name in m {
        CurrentNames(ss[0], ss[0][a].name);
      }
    } else {
      var k := |rs| - 1;
      ChroniclePrefix(rs, ss);
      JournalRebuilds(m, rs[..k], ss[..k + 1]);
      RebuiltNext(m, ss, ReplayAll(m, rs[..k]).value, rs[k]);
    }
  }

  lemma RebuiltNext(m: map<Name, bool>, ss: seq<map<Id, Status>>, v: map<Name, bool>, r: StepMetadata)
    requires |ss| >= 2 && Rebuilt(m, ss[..|ss| - 1], v) && Recorded(r, ss[|ss| - 2], ss[|ss| - 1])
    ensures ReplayChanges(v, r).Some? && Rebuilt(m, ss, ReplayChanges(v, r).value)
  {
    var before, last := ss[|ss| - 2], ss[|ss| - 1];
    NamesRestored(r, Current(before), last, v);
    var u := ReplayChanges(v, r).value;
    forall a | a in last
      ensures last[a].name in u && (u[last[a].name] == last[a].paused <==> FlagRight(m, ss, a))
    {
      ReplayedFlag(r, Current(before), last, v, a);
      if a in before {
        assert Current(before)[a] == (before[a].name, before[a].paused);
      }
    }
  }

  /** An endpoint that is added and then paused before the next step is written comes back running. */
  lemma PauseAfterAddIsForgotten(n: Name)
    ensures
      var e := Status(n, Config(false, false), true);
      var r := StepMetadata(0, {}, map[n := e.config], map[], map[]);
      Consistent(map[], map[0 := e]) && Tells(r, map[], map[0 := e])
      && ReplayChanges(map[], r) == Some(map[n := false])
  {
    var e := Status(n, Config(false, false), true);
    var inputs: map<Id, Status> := map[0 := e];
    var r := StepMetadata(0, {}, map[n := e.config], map[], map[]);
    assert 0 in inputs && inputs[0].name == n;
    assert LogsAdditions(r.addInputs, map[], inputs, inputs.Keys);
    assert ReplayChanges(map[], r).value == map[n := false];
  }

  /** An endpoint that is added after the last journaled step is in the next checkpoint and is logged as
      new by the record that follows it. Replaying that record fails on the duplicate name. */
  lemma AddedBeforeCheckpoint(n: Name)
    ensures
      var e := Status(n, Config(false, false), false);
      var r := StepMetadata(0, {}, map[n := e.config], map[], map[]);
      Consistent(map[], map[0 := e]) && Tells(r, map[], map[0 := e])
      && Describes(map[n := false], Current(map[0 := e]))
      && ReplayChanges(map[n := false], r) == None
  {
    var e := Status(n, Config(false, false), false);
    var inputs: map<Id, Status> := map[0 := e];
    var r := StepMetadata(0, {}, map[n := e.config], map[], map[]);
    assert 0 in inputs && inputs[0].name == n;
    assert LogsAdditions(r.addInputs, map[], inputs, inputs.Keys);
    CurrentNames(inputs, n);
    var m: map<Name, bool> := map[n := false];
    assert n in (m - r.removeInputs).Keys * r.addInputs.Keys;
  }

  /** An endpoint that is removed after the last journaled step is not in the next checkpoint, and the
      record that follows it logs its removal. Replaying that record fails on the unknown name. */
  lemma RemovedBeforeCheckpoint(n: Name)
    ensures
      var known: map<Id, (Name, bool)> := map[0 := (n, false)];
      var r := StepMetadata(0, {n}, map[], map[], map[]);
      Consistent(known, map[]) && Tells(r, known, map[])
      && Describes(map[], Current(map[])) && ReplayChanges(map[], r) == None
  {
    var known: map<Id, (Name, bool)> := map[0 := (n, false)];
    var r := StepMetadata(0, {n}, map[], map[], map[]);
    assert 0 in known && known[0].0 == n;
    assert LogsRemovals(r.removeInputs, known, map[], known.Keys);
    assert n in r.removeInputs;
  }

  // ---------------------------------------------------------------- the state

  /** Number of records and hash per endpoint. */
  function Checksums(logs: map<Name, InputLog>): map<Name, (nat, int)>
  {
    map n | n in logs :: (logs[n].records, logs[n].hash)
  }

  /** What the endpoints log when they replay a record. */
  function ReplayedLogs(p: Recovery.Pipeline, position: map<Name, nat>, r: Recovery.StepRecord): map<Name, InputLog>
    requires r.logs.Keys == p.inputs
  {
    map n | n in p.inputs ::
      Recovery.LogOf(p, n, Recovery.Start(position, n), Recovery.ReadBack(p, n, Recovery.Start(position, n), r.logs[n]))
  }

  /** The comparison of checksums that `WriteStep` makes accepts exactly the replays that the recovery
      machine accepts. */
  lemma ChecksumsDecideReplay(p: Recovery.Pipeline, position: map<Name, nat>, r: Recovery.StepRecord)
    requires r.logs.Keys == p.inputs
    ensures Recovery.ReplayInput(p, r.step, position, r).Some?
            <==> Checksums(ReplayedLogs(p, position, r)) == Checksums(r.logs)
  {
    var b := map n | n in p.inputs :: Recovery.ReadBack(p, n, Recovery.Start(position, n), r.logs[n]);
    var c, d := Checksums(ReplayedLogs(p, position, r)), Checksums(r.logs);
    assert c.Keys == d.Keys;
    assert forall n | n in p.inputs :: c[n] == (|b[n]|, p.hash(b[n])) && d[n] == (r.logs[n].records, r.logs[n].hash);
    if Recovery.ReplayInput(p, r.step, position, r).Some? {
      assert c == d;
    }
    if c == d {
      assert forall n | n in p.inputs :: c[n] == d[n];
    }
  }

  function RecordOf(m: StepMetadata): Recovery.StepRecord
  {
    Recovery.StepRecord(m.step, m.inputLogs)
  }

  method Removals(known: map<Id, (Name, bool)>, inputs: map<Id, Status>) returns (removed: set<Name>)
    ensures LogsRemovals(removed, known, inputs, known.Keys)
  {
    removed := {};
    var seen := {};
    while known.Keys - seen != {}
      invariant seen <= known.Keys && LogsRemovals(removed, known, inputs, seen)
      decreases known.Keys - seen
    {
      var a :| a in known.Keys - seen;
      RemovalStep(removed, known, inputs, seen, a);
      if a !in inputs {
        removed := removed + {known[a].0};
      }
      seen := seen + {a};
    }
    NoneLeft(known.Keys, seen);
  }

  lemma RemovalStep(removed: set<Name>, known: map<Id, (Name, bool)>, inputs: map<Id, Status>, seen: set<Id>, a: Id)
    requires seen <= known.Keys && a in known.Keys - seen && LogsRemovals(removed, known, inputs, seen)
    ensures LogsRemovals(if a !in inputs then removed + {known[a].0} else removed, known, inputs, seen + {a})
  {
  }

  method Changes(known: map<Id, (Name, bool)>, inputs: map<Id, Status>) returns (changed: map<Name, bool>)
    requires Consistent(known, inputs)
    ensures LogsChanges(changed, known, inputs, known.Keys)
  {
    changed := map[];
    var seen := {};
    while known.Keys - seen != {}
      invariant seen <= known.Keys && LogsChanges(changed, known, inputs, seen)
      decreases known.Keys - seen
    {
      var a :| a in known.Keys - seen;
      ChangeStep(changed, known, inputs, seen, a);
      if Changed(known, inputs, a) {
        changed := changed[known[a].0 := inputs[a].paused];
      }
      seen := seen + {a};
    }
    NoneLeft(known.Keys, seen);
  }

  lemma ChangeStep(changed: map<Name, bool>, known: map<Id, (Name, bool)>, inputs: map<Id, Status>, seen: set<Id>,
                   a: Id)
    requires seen <= known.Keys && a in known.Keys - seen && LogsChanges(changed, known, inputs, seen)
    requires Consistent(known, inputs)
    ensures LogsChanges(if Changed(known, inputs, a) then changed[known[a].0 := inputs[a].paused] else changed,
                        known, inputs, seen + {a})
  {
  }

  method Additions(known: map<Id, (Name, bool)>, inputs: map<Id, Status>) returns (added: map<Name, Config>)
    requires Consistent(known, inputs)
    ensures LogsAdditions(added, known, inputs, inputs.Keys)
  {
    added := map[];
    var seen := {};
    while inputs.Keys - seen != {}
      invariant seen <= inputs.Keys && LogsAdditions(added, known, inputs, seen)
      decreases inputs.Keys - seen
    {
      var a :| a in inputs.Keys - seen;
      AdditionStep(added, known, inputs, seen, a);
      if a !in known {
        added := added[inputs[a].name := inputs[a].config];
      }
      seen := seen + {a};
    }
    NoneLeft(inputs.Keys, seen);
  }

  lemma AdditionStep(added: map<Name, Config>, known: map<Id, (Name, bool)>, inputs: map<Id, Status>, seen: set<Id>,
                     a: Id)
    requires seen <= inputs.Keys && a in inputs.Keys - seen && LogsAdditions(added, known, inputs, seen)
    requires Consistent(known, inputs)
    ensures LogsAdditions(if a !in known then added[inputs[a].name := inputs[a].config] else added, known, inputs,
                          seen + {a})
  {
  }

  method NewRecord(step: nat, logs: map<Name, InputLog>, known: map<Id, (Name, bool)>, inputs: map<Id, Status>)
    returns (r: StepMetadata)
    requires Consistent(known, inputs)
    ensures Tells(r, known, inputs) && RecordOf(r) == Recovery.StepRecord(step, logs)
  {
    var removed := Removals(known, inputs);
    var changed := Changes(known, inputs);
    var added := Additions(known, inputs);
    r := StepMetadata(step, removed, added, changed, logs);
  }

  /** The endpoint changes of a record can be carried out, and its logs belong to known endpoints. */
  predicate Replayable(m: map<Name, bool>, r: StepMetadata)
  {
    ReplayChanges(m, r).Some? && r.inputLogs.Keys <= ReplayChanges(m, r).value.Keys
  }

  /** Every removed endpoint is there; every added one is not, or is removed first; and every endpoint that is
      paused, resumed or has a log is there afterwards. */
  ghost predicate CarriesOut(m: map<Name, bool>, r: StepMetadata)
  {
    && (forall n | n in r.removeInputs :: n in m)
    && (forall n | n in r.addInputs && n in m :: n in r.removeInputs)
    && (forall n | n in r.changedInputs || n in r.inputLogs :: n in r.addInputs || (n in m && n !in r.removeInputs))
  }

  lemma ReplayableIff(m: map<Name, bool>, r: StepMetadata)
    ensures Replayable(m, r) <==> CarriesOut(m, r)
  {
    var kept := m - r.removeInputs;
    assert kept.Keys * r.addInputs.Keys == {} <==> forall n | n in r.addInputs && n in m :: n in r.removeInputs by {
      forall n | n in kept.Keys * r.addInputs.Keys ensures n in r.addInputs && n in m && n !in r.removeInputs {}
      forall n | n in r.addInputs && n in m && n !in r.removeInputs ensures n in kept.Keys * r.addInputs.Keys {}
    }
  }

  /** There is a record for `step`, but it is for another step or cannot be carried out. */
  ghost predicate Refused(journal: map<nat, StepMetadata>, step: nat, m: map<Name, bool>)
  {
    step in journal && (journal[step].step != step || !CarriesOut(m, journal[step]))
  }

  /** The endpoints that replayed are those of the logs, with as many records and the same hashes. */
  ghost predicate Reproduces(results: map<Name, Option<InputLog>>, logs: map<Name, InputLog>)
  {
    && results.Keys == logs.Keys
    && forall n | n in logs ::
         && results[n].Some?
         && results[n].value.records == logs[n].records && results[n].value.hash == logs[n].hash
  }

  lemma ChecksumsAgree(results: map<Name, Option<InputLog>>, logs: map<Name, InputLog>)
    requires forall n | n in results :: results[n].Some?
    ensures Checksums(Logs(results)) == Checksums(logs) <==> Reproduces(results, logs)
  {
    var c, d := Checksums(Logs(results)), Checksums(logs);
    assert c.Keys == results.Keys && d.Keys == logs.Keys;
    if c == d {
      forall n | n in logs ensures c[n] == d[n] {}
    }
    if Reproduces(results, logs) {
      assert c == d;
    }
  }

  function Logs(results: map<Name, Option<InputLog>>): map<Name, InputLog>
  {
    map n | n in results && results[n].Some? :: results[n].value
  }

  ghost predicate Filed(journal: map<nat, StepMetadata>)
  {
    forall k | k in journal :: journal[k].step == k
  }

  function ReadJournal(journal: map<nat, StepMetadata>, step: nat): Result<Option<StepMetadata>, Error>
  {
    if step !in journal then Ok(None)
    else if journal[step].step != step then Err(WrongStep)
    else Ok(Some(journal[step]))
  }

  class FtState {
    var enabled: bool
    var journal: map<nat, StepMetadata>
    var replayStep: Option<StepMetadata>
    var inputEndpoints: map<Id, (Name, bool)>

    // The controller's endpoints with their paused flags, and what their readers were told to replay.
    var endpoints: map<Name, bool>
    var commanded: map<Name, InputLog>

    /** Every record is filed under its own step. */
    ghost predicate Valid()
      reads this
    {
      Filed(journal)
    }

    /** The journal as the recovery machine sees it. */
    ghost function Records(): map<nat, Recovery.StepRecord>
      reads this
    {
      map k | k in journal :: RecordOf(journal[k])
    }

    ghost function Replaying(): Option<Recovery.StepRecord>
      reads this
    {
      if replayStep.Some? then Some(RecordOf(replayStep.value)) else None
    }

    constructor (stored: map<nat, StepMetadata>, endpoints: map<Name, bool>)
      ensures enabled && journal == stored && replayStep == None && inputEndpoints == map[]
      ensures this.endpoints == endpoints && commanded == map[]
    {
      enabled, journal, replayStep, inputEndpoints := true, stored, None, map[];
      this.endpoints, commanded := endpoints, map[];
    }

    /** Opens stored state. If the journal has a record for `step`, its endpoint changes are carried out
        and its logs handed to the readers. Fails exactly if that record is for another step or names
        unknown or duplicate endpoints. `inputs` are the endpoints as they are registered afterwards. */
    static method Open(stored: map<nat, StepMetadata>, step: nat, endpoints: map<Name, bool>, inputs: map<Id, Status>)
      returns (result: Result<FtState, Error>)
      ensures result.Err? <==> Refused(stored, step, endpoints)
      ensures result.Ok? ==>
                var ft := result.value;
                && fresh(ft) && ft.enabled && ft.journal == stored && ft.inputEndpoints == Current(inputs)
                && ft.Replaying() == Recovery.Read(ft.Records(), step)
                && if step in stored then Some(ft.endpoints) == ReplayChanges(endpoints, stored[step])
                                          && ft.commanded == stored[step].inputLogs
                   else ft.endpoints == endpoints && ft.commanded == map[]
    {
      var ft := new FtState(stored, endpoints);
      var r := ft.Advance(step);
      if r.Err? {
        return Err(r.error);
      }
      ft.inputEndpoints := Current(inputs);
      result := Ok(ft);
    }

    /** Reads the record for `step`, if any, and starts to replay it. */
    method Advance(step: nat) returns (result: Result<(), Error>)
      modifies this`replayStep, this`endpoints, this`commanded
      ensures result.Err? <==> Refused(journal, step, old(endpoints))
      ensures result.Ok? ==>
                && replayStep == (if step in journal then Some(journal[step]) else None)
                && if step in journal then Some(endpoints) == ReplayChanges(old(endpoints), journal[step])
                                           && commanded == journal[step].inputLogs
                   else endpoints == old(endpoints) && commanded == old(commanded)
    {
      var record := ReadJournal(journal, step);
      if record.Err? {
        return Err(record.error);
      }
      replayStep := record.value;
      if replayStep.Some? {
        var r := replayStep.value;
        ReplayableIff(endpoints, r);
        if !Replayable(endpoints, r) {
          return Err(UnknownEndpoint);
        }
        endpoints := ReplayChanges(endpoints, r).value;
        commanded := r.inputLogs;
      }
      result := Ok(());
    }

    /** Journals a step, or checks a replayed step against its record. `results` has each endpoint's log
        for the step, if what it reported can be replayed. */
    method WriteStep(results: map<Name, Option<InputLog>>, step: nat, inputs: map<Id, Status>, terminated: bool)
      returns (result: Result<(), Error>)
      requires Consistent(inputEndpoints, inputs)
      modifies this`journal, this`inputEndpoints
      ensures old(Valid()) ==> Valid()
      ensures !enabled || (replayStep.None? && terminated) ==> result.Ok?
      ensures enabled && (replayStep.Some? || !terminated) ==>
                && (result == Err(MissingReplay) <==> exists n | n in results :: results[n].None?)
                && (result == Err(ReplayFailure) <==>
                    && replayStep.Some? && (forall n | n in results :: results[n].Some?)
                    && !Reproduces(results, replayStep.value.inputLogs))
                && (result.Err? ==> result.error == MissingReplay || result.error == ReplayFailure)
      ensures !enabled || replayStep.Some? || terminated || result.Err? ==>
                journal == old(journal) && inputEndpoints == old(inputEndpoints)
      ensures enabled && replayStep.None? && !terminated && result.Ok? ==>
                && step in journal && Tells(journal[step], old(inputEndpoints), inputs)
                && journal == old(journal)[step := journal[step]]
                && Records() == old(Records())[step := Recovery.StepRecord(step, Logs(results))]
                && inputEndpoints == Current(inputs)
                && journal[step].step == step && journal[step].inputLogs.Keys == results.Keys
                && (forall n | n in results :: results[n] == Some(journal[step].inputLogs[n]))
    {
      if !enabled || (replayStep.None? && terminated) {
        return Ok(());
      }
      if exists n | n in results :: results[n].None? {
        return Err(MissingReplay);
      }
      match replayStep {
        case Some(record) =>
          ChecksumsAgree(results, record.inputLogs);
          if Checksums(Logs(results)) == Checksums(record.inputLogs) {
            result := Ok(());
          } else {
            result := Err(ReplayFailure);
          }
        case None =>
          Append(step, Logs(results), inputs);
          result := Ok(());
      }
    }

    method Append(step: nat, logs: map<Name, InputLog>, inputs: map<Id, Status>)
      requires Consistent(inputEndpoints, inputs)
      modifies this`journal, this`inputEndpoints
      ensures old(Valid()) ==> Valid()
      ensures step in journal && Tells(journal[step], old(inputEndpoints), inputs)
      ensures journal[step].step == step && journal[step].inputLogs == logs
      ensures journal == old(journal)[step := journal[step]]
      ensures Records() == old(Records())[step := Recovery.StepRecord(step, logs)]
      ensures inputEndpoints == Current(inputs)
    {
      var record := NewRecord(step, logs, inputEndpoints, inputs);
      inputEndpoints := Current(inputs);
      journal := journal[step := record];
    }

    /** After a replayed step, moves on to the next journal record, if there is one. */
    method NextStep(step: nat, inputs: map<Id, Status>) returns (result: Result<(), Error>)
      modifies this`replayStep, this`inputEndpoints, this`endpoints, this`commanded
      ensures !enabled || old(replayStep).None? ==>
                && result.Ok? && replayStep == old(replayStep) && inputEndpoints == old(inputEndpoints)
                && endpoints == old(endpoints) && commanded == old(commanded)
      ensures enabled && old(replayStep).Some? ==>
                (result.Err? <==> Refused(journal, step, old(endpoints)))
      ensures enabled && old(replayStep).Some? && result.Ok? ==>
                && Replaying() == Recovery.Read(Records(), step)
                && if step in journal then Some(endpoints) == ReplayChanges(old(endpoints), journal[step])
                                           && commanded == journal[step].inputLogs
                                           && inputEndpoints == old(inputEndpoints)
                   else inputEndpoints == Current(inputs) && endpoints == old(endpoints)
    {
      if !enabled || replayStep.None? {
        return Ok(());
      }
      result := Advance(step);
      if result.Ok? && replayStep.None? {
        inputEndpoints := Current(inputs);
      }
    }

    /** Deletes the journal's records up to, but not including, `step`. */
    method Checkpointed(step: nat)
      modifies this`journal
      ensures old(Valid()) ==> Valid()
      ensures journal == map k | k in old(journal) && k >= step :: old(journal)[k]
      ensures Records() == old(Records()) - set k | k in old(journal) && k < step
    {
      var files := journal.Keys;
      while files != {}
        invariant files <= old(journal).Keys
        invariant journal == map k | k in old(journal) && (k >= step || k in files) :: old(journal)[k]
        decreases |files|
      {
        var k :| k in files;
        files := files - {k};
        if k < step {
          journal := journal - {k};
        }
      }
    }
  }
}
