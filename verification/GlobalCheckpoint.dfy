// miles/utils/multi_policy: the record a global save leaves behind, and the check a restart runs against it.
module GlobalCheckpoint {
  import opened Wrappers
  import opened P = Parker
  import opened MultiPolicy

  datatype RestoreError = NotFresh | NoDirectory | NoRecord | WrongRecord | OtherLeader | OtherPositions

  // MultiPolicyCheckpointState.load: None when there is no file; the file must be about the rollout it is named after.
  function Load(states: map<int, CheckpointState>, id: int): Result<Option<CheckpointState>, RestoreError> {
    if id !in states then Ok(None)
    else if states[id].leader in states[id].ids && states[id].ids[states[id].leader] == id then Ok(Some(states[id]))
    else Err(WrongRecord)
  }

  function Positions(start: map<Policy, nat>): map<Policy, int> {
    map m | m in start :: (start[m] as int) - 1
  }

  // assert_consistent_restore: `start` holds the start_rollout_id each trainer restored.
  function CheckRestore(hasDir: bool, states: map<int, CheckpointState>, leader: Policy, start: map<Policy, nat>)
    : Result<(), RestoreError>
    requires leader in start
  {
    var id := (start[leader] as int) - 1;
    if id < 0 then
      (if forall m :: m in start ==> start[m] == 0 then Ok(()) else Err(NotFresh))
    else if !hasDir then Err(NoDirectory)
    else match Load(states, id)
      case Err(e) => Err(e)
      case Ok(None) => Err(NoRecord)
      case Ok(Some(state)) =>
        if state.leader != leader then Err(OtherLeader)
        else if state.ids != Positions(start) then Err(OtherPositions)
        else Ok(())
  }

  lemma CheckIff(states: map<int, CheckpointState>, leader: Policy, start: map<Policy, nat>, ids: map<Policy, int>)
    requires leader in start && start.Keys == ids.Keys && start[leader] > 0 && ids[leader] == start[leader] - 1
    requires ids[leader] in states && states[ids[leader]] == CheckpointState(leader, ids)
    ensures CheckRestore(true, states, leader, start).Ok? <==> forall m :: m in ids ==> start[m] == ids[m] + 1
  {
  }

  lemma SaveIsFiled(c: Config, actions: seq<Action>, i: nat)
    requires Valid(c) && c.keepsState && Run(c, actions).Some? && i < |Run(c, actions).value.saves|
    ensures var s := Run(c, actions).value;
            && s.saves[i].models == s.saves[i].trained && s.saves[i].trained.Keys == Everyone(c)
            && s.saves[i].trained[c.leader] == s.saves[i].round && s.saves[i].round in s.states
            && s.states[s.saves[i].round] == CheckpointState(c.leader, s.saves[i].trained)
  {
    RunKeeps(c, actions);
  }

  // What a save wrote is read back under the leader's rollout, whatever was filed before it or is saved later.
  lemma LoadFindsSave(c: Config, actions: seq<Action>, i: nat)
    requires Valid(c) && c.keepsState && Run(c, actions).Some? && i < |Run(c, actions).value.saves|
    ensures var s := Run(c, actions).value;
            Load(s.states, s.saves[i].round) == Ok(Some(CheckpointState(c.leader, s.saves[i].trained)))
  {
    SaveIsFiled(c, actions, i);
  }

  // The record of one rollout is what it was, or a new one about that rollout.
  ghost predicate FiledAt(before: map<int, CheckpointState>, states: map<int, CheckpointState>, id: int) {
    || ((id in states <==> id in before) && (id in states ==> states[id] == before[id]))
    || (id in states && Load(states, id) == Ok(Some(states[id])))
  }

  lemma CommitFiles(c: Config, s: State, models: map<Policy, int>, data: map<Policy, int>, id: int)
    ensures FiledAt(s.states, CommitSave(c, s, models, data).states, id)
  {
  }

  // Every other step of the leader leaves the records alone.
  lemma StepsFileNothing(c: Config, s: State, external: bool)
    ensures LeaderStops(s).states == s.states && BeginRound(c, s).states == s.states
    ensures FinishTraining(c, s, external).states == s.states && GatherModels(c, s).states == s.states
    ensures FinishUpdate(c, s).states == s.states && EndRound(c, s).states == s.states
  {
  }

  lemma ParkingFilesNothing(c: Config, s: State, external: bool)
    requires s.leader.LSaveWaitNone? || s.leader.LEvalWaitNone? || s.leader.LEvalWaitAll? || s.leader.LEvaluating?
    requires LeaderNext(c, s, external).Some?
    ensures LeaderNext(c, s, external).value.states == s.states
  {
  }

  lemma OnlyCommitsFile(c: Config, s: State, external: bool)
    requires LeaderNext(c, s, external).Some? && !s.leader.LSavingData?
    ensures LeaderNext(c, s, external).value.states == s.states
  {
    if s.leader.LSaveWaitNone? || s.leader.LEvalWaitNone? || s.leader.LEvalWaitAll? || s.leader.LEvaluating? {
      ParkingFilesNothing(c, s, external);
    } else {
      StepsFileNothing(c, s, external);
    }
  }

  lemma FollowerFilesNothing(c: Config, s: State, f: Policy)
    requires Valid(c) && Inv(c, s) && f in s.followers && FollowerNext(c, s, f).Some?
    ensures FollowerNext(c, s, f).value.states == s.states
  {
    assert FollowerOk(c, s, f);
    FollowerKeepsOwn(c, s, f);
  }

  lemma LeaderFiles(c: Config, s: State, external: bool, id: int)
    requires LeaderNext(c, s, external).Some?
    ensures FiledAt(s.states, LeaderNext(c, s, external).value.states, id)
  {
    if s.leader.LSavingData? {
      CommitFiles(c, s, s.leader.models, s.leader.data, id);
    } else {
      OnlyCommitsFile(c, s, external);
    }
  }

  lemma NextFiles(c: Config, s: State, a: Action, id: int)
    requires Valid(c) && Inv(c, s) && Next(c, s, a).Some?
    ensures FiledAt(s.states, Next(c, s, a).value.states, id)
  {
    match a
    case LeaderMoves(external) => LeaderFiles(c, s, external, id);
    case FollowerMoves(f) => FollowerFilesNothing(c, s, f);
    case LeaderFails => StepsFileNothing(c, s, false);
    case FollowerFails(f) =>
    case CancelPending =>
  }

  // A run files no record that a restart would misread: a rollout whose record does not load afterwards had that
  // very record in the directory before the run.
  lemma {:induction false} BadRecordsAreOld(c: Config, actions: seq<Action>, id: int)
    requires Valid(c) && Run(c, actions).Some? && Load(Run(c, actions).value.states, id).Err?
    ensures id in c.found && Run(c, actions).value.states[id] == c.found[id]
  {
    if actions != [] {
      var before := actions[..|actions| - 1];
      RunKeeps(c, before);
      NextFiles(c, Run(c, before).value, actions[|actions| - 1], id);
      BadRecordsAreOld(c, before, id);
    }
  }

  // A restart from a global save is accepted exactly when every policy resumes right after the rollout its own
  // model checkpoint of that save was labelled with.
  lemma RestoreMatchesSave(c: Config, actions: seq<Action>, i: nat, start: map<Policy, nat>)
    requires Valid(c) && c.keepsState && Run(c, actions).Some? && i < |Run(c, actions).value.saves|
    requires start.Keys == Everyone(c) && start[c.leader] == Run(c, actions).value.saves[i].round + 1
    ensures var s := Run(c, actions).value;
            CheckRestore(true, s.states, c.leader, start).Ok?
            <==> forall m :: m in s.saves[i].models ==> m in start && start[m] == s.saves[i].models[m] + 1
  {
    SaveIsFiled(c, actions, i);
    CheckIff(Run(c, actions).value.states, c.leader, start, Run(c, actions).value.saves[i].trained);
  }

  // The run a restart begins from an accepted save loses nothing and repeats nothing: every policy starts
  // where the saved model's training ended.
  lemma RestartContinues(c: Config, actions: seq<Action>, i: nat, again: Config)
    requires Valid(c) && c.keepsState && Run(c, actions).Some? && i < |Run(c, actions).value.saves|
    requires Valid(again) && again.leader == c.leader && again.followers == c.followers
    requires again.start[c.leader] == Run(c, actions).value.saves[i].round + 1
    requires CheckRestore(true, Run(c, actions).value.states, c.leader, again.start).Ok?
    ensures Init(again).trained == Run(c, actions).value.saves[i].trained
  {
    SaveIsFiled(c, actions, i);
  }
}
