// train_multi_policy.py: one leader and any number of followers train at their own pace over shared engines.
// Every policy is a task that runs alone between two awaits; a schedule is any sequence of actions.
module MultiPolicy {
  import opened Wrappers
  import opened Arithmetic
  import opened Schedule
  import opened P = Parker

  datatype Config = Config(
    leader: Policy,
    followers: set<Policy>,
    start: map<Policy, nat>,                // start_rollout_id of every trainer
    total: nat,                             // num_rollout
    saveInterval: Option<pos>,
    evalInterval: Option<pos>,
    perEpoch: Option<pos>,
    debugExit: Option<int>,
    keepsState: bool,                       // args.save is not None
    found: map<int, CheckpointState>)       // records already in the directory

  // MultiPolicyCheckpointState
  datatype CheckpointState = CheckpointState(leader: Policy, ids: map<Policy, int>)

  function Everyone(c: Config): set<Policy> {
    c.followers + {c.leader}
  }

  predicate Valid(c: Config) {
    c.leader !in c.followers && c.start.Keys == Everyone(c)
  }

  datatype FollowerPc =
    AtTop | Working | SaveEntering | SaveParked | Updating | EvalEntering | EvalParked | Gone

  datatype Follower = Follower(pc: FollowerPc, round: nat)

  datatype LeaderPc =
    | LTop
    | LWork
    | LSaveWaitNone
    | LSaveWaitAll
    | LSavingModels(models: map<Policy, int>)
    | LSavingData(models: map<Policy, int>, data: map<Policy, int>)
    | LUpdate
    | LEvalWaitNone
    | LEvalWaitAll
    | LEvaluating
    | LExitCheck
    | LGone(saved: bool)                    // the save of its last round, if due, was behind it

  // A finished global save: what every model checkpoint was labelled with, what the rollout executor and
  // the checkpoint record were told, and what had really been trained on when the save closed.
  datatype Save = Save(
    round: nat, models: map<Policy, int>, data: map<Policy, int>, record: map<Policy, int>, trained: map<Policy, int>)

  datatype State = State(
    leader: LeaderPc,
    round: nat,
    followers: map<Policy, Follower>,
    save: Parker,
    eval: Parker,
    ids: map<Policy, int>,                  // rollout_ids
    trained: map<Policy, int>,              // last rollout each policy finished training on
    saves: seq<Save>,
    states: map<int, CheckpointState>,      // the record files, by leader rollout
    runEnded: bool,
    ended: bool,                            // some task has completed
    cancelled: bool)                        // ... and the others were cancelled

  function Init(c: Config): State
    requires Valid(c)
  {
    State(LTop, c.start[c.leader], map f | f in c.followers :: Follower(AtTop, c.start[f]), Fresh(), Fresh(),
          map[], map m | m in Everyone(c) :: c.start[m] - 1, [], c.found, false, false, false)
  }

  datatype Action =
    | LeaderMoves(external: bool)           // external: the save trigger file exists
    | FollowerMoves(f: Policy)
    | LeaderFails
    | FollowerFails(f: Policy)
    | CancelPending

  // ---- the leader ----

  predicate SaveDue(c: Config, r: nat, external: bool) {
    external || RunsAt(r, c.saveInterval, c.perEpoch, c.total)
  }

  predicate ExitDue(c: Config, r: nat) {
    c.debugExit.Some? && c.leader in c.start && r - c.start[c.leader] + 1 >= c.debugExit.value
  }

  predicate HoldsSave(pc: LeaderPc) {
    pc.LSaveWaitAll? || pc.LSavingModels? || pc.LSavingData?
  }

  predicate HoldsEval(pc: LeaderPc) {
    pc.LEvalWaitAll? || pc.LEvaluating?
  }

  // The leader stops; leaving with_all_parked opens the parker it holds.
  function LeaderStops(s: State): State {
    s.(leader := LGone(!BeforeSave(s.leader)), ended := true,
       save := if HoldsSave(s.leader) then Open(s.save) else s.save,
       eval := if HoldsEval(s.leader) then Open(s.eval) else s.eval)
  }

  function BeginRound(c: Config, s: State): State {
    if s.runEnded || s.round >= c.total then LeaderStops(s)
    else s.(leader := LWork, ids := s.ids[c.leader := s.round])
  }

  function FinishTraining(c: Config, s: State, external: bool): State {
    s.(trained := s.trained[c.leader := s.round],
       leader := if SaveDue(c, s.round, external) then LSaveWaitNone else LUpdate)
  }

  // rollout_ids[m] for every trainer; a policy without an entry is a KeyError.
  function GatherModels(c: Config, s: State): State {
    if Everyone(c) <= s.ids.Keys then s.(leader := LSavingModels(map m | m in Everyone(c) :: s.ids[m]))
    else LeaderStops(s)
  }

  function CommitSave(c: Config, s: State, models: map<Policy, int>, data: map<Policy, int>): State {
    if c.leader !in s.ids then LeaderStops(s) else
    s.(leader := LUpdate, save := Open(s.save),
       saves := s.saves + [Save(s.round, models, data, s.ids, s.trained)],
       states := if c.keepsState then s.states[s.ids[c.leader] := CheckpointState(c.leader, s.ids)] else s.states)
  }

  function FinishUpdate(c: Config, s: State): State {
    s.(leader := if RunsAt(s.round, c.evalInterval, c.perEpoch, c.total) then LEvalWaitNone else LExitCheck)
  }

  function EndRound(c: Config, s: State): State {
    if ExitDue(c, s.round) then LeaderStops(s) else s.(leader := LTop, round := s.round + 1)
  }

  function LeaderNext(c: Config, s: State, external: bool): Option<State> {
    match s.leader
    case LTop => Some(BeginRound(c, s))
    case LWork => Some(FinishTraining(c, s, external))
    case LSaveWaitNone => if s.save.numReady == 0 then Some(s.(leader := LSaveWaitAll, save := Close(s.save))) else None
    case LSaveWaitAll => if s.save.numReady == |c.followers| then Some(GatherModels(c, s)) else None
    case LSavingModels(models) => Some(s.(leader := LSavingData(models, s.ids)))
    case LSavingData(models, data) => Some(CommitSave(c, s, models, data))
    case LUpdate => Some(FinishUpdate(c, s))
    case LEvalWaitNone => if s.eval.numReady == 0 then Some(s.(leader := LEvalWaitAll, eval := Close(s.eval))) else None
    case LEvalWaitAll => if s.eval.numReady == |c.followers| then Some(s.(leader := LEvaluating)) else None
    case LEvaluating => Some(s.(leader := LExitCheck, eval := Open(s.eval)))
    case LExitCheck => Some(EndRound(c, s))
    case LGone(_) => None
  }

  // ---- a follower ----

  function Put(s: State, f: Policy, pc: FollowerPc, round: nat): State {
    s.(followers := s.followers[f := Follower(pc, round)])
  }

  function FollowerNext(c: Config, s: State, f: Policy): Option<State>
    requires f in s.followers
  {
    var r := s.followers[f].round;
    match s.followers[f].pc
    case AtTop =>
      Some(if s.runEnded then Put(s, f, Gone, r).(ended := true) else Put(s, f, Working, r).(ids := s.ids[f := r]))
    case Working => Some(Put(s, f, SaveEntering, r).(trained := s.trained[f := r]))
    case SaveEntering =>
      Some(Put(s, f, if s.save.open then Updating else SaveParked, r).(save := Arrive(s.save, f)))
    case SaveParked =>
      if f in s.save.waiters && s.save.waiters[f] then Some(Put(s, f, Updating, r).(save := Depart(s.save, f)))
      else None
    case Updating => Some(Put(s, f, EvalEntering, r))
    case EvalEntering =>
      var pc := if s.eval.open then AtTop else EvalParked;
      Some(Put(s, f, pc, if s.eval.open then r + 1 else r).(eval := Arrive(s.eval, f)))
    case EvalParked =>
      if f in s.eval.waiters && s.eval.waiters[f] then Some(Put(s, f, AtTop, r + 1).(eval := Depart(s.eval, f)))
      else None
    case Gone => None
  }

  function Next(c: Config, s: State, a: Action): Option<State> {
    if s.cancelled then None else
    match a
    case LeaderMoves(external) => LeaderNext(c, s, external)
    case FollowerMoves(f) => if f in s.followers then FollowerNext(c, s, f) else None
    case LeaderFails => if s.leader.LGone? then None else Some(LeaderStops(s))
    case FollowerFails(f) =>
      if f in s.followers && (s.followers[f].pc.Working? || s.followers[f].pc.Updating?) then
        Some(Put(s, f, Gone, s.followers[f].round).(ended := true))
      else None
    case CancelPending => if s.ended then Some(s.(cancelled := true, runEnded := true)) else None
  }

  // The state after a schedule, or None when some action was not enabled.
  function Run(c: Config, actions: seq<Action>): Option<State>
    requires Valid(c)
  {
    if actions == [] then Some(Init(c)) else
    match Run(c, actions[..|actions| - 1])
    case None => None
    case Some(s) => Next(c, s, actions[|actions| - 1])
  }

  // ---- what every schedule keeps ----

  // Where follower f stands, and what the shared dictionary says about it.
  ghost predicate FollowerOk(c: Config, s: State, f: Policy) {
    && f in s.followers && f in s.trained && f in c.start
    && var Follower(pc, r) := s.followers[f];
    && (f in s.save.waiters <==> pc.SaveParked?)
    && (f in s.eval.waiters <==> pc.EvalParked?)
    && (pc.AtTop? || pc.Working? ==> s.trained[f] == r - 1)
    && (!pc.AtTop? && !pc.Working? && !pc.Gone? ==> s.trained[f] == r)
    && (!pc.AtTop? && !pc.Gone? ==> f in s.ids && s.ids[f] == r)
  }

  ghost predicate ParkersOk(c: Config, s: State) {
    && Sound(s.save) && Sound(s.eval)
    && s.save.open == !HoldsSave(s.leader) && s.eval.open == !HoldsEval(s.leader)
    && s.save.waiters.Keys <= c.followers && s.eval.waiters.Keys <= c.followers
  }

  ghost predicate AllIn(c: Config, s: State, pc: FollowerPc) {
    forall f :: f in c.followers ==> f in s.followers && s.followers[f].pc == pc
  }

  ghost predicate LeaderOk(c: Config, s: State) {
    && c.leader in s.trained
    && (s.leader.LTop? || s.leader.LWork? ==> s.trained[c.leader] == s.round - 1)
    && (!s.leader.LTop? && !s.leader.LWork? && !s.leader.LGone? ==> s.trained[c.leader] == s.round)
    && (!s.leader.LTop? && !s.leader.LGone? ==> c.leader in s.ids && s.ids[c.leader] == s.round)
    && (s.leader.LSavingModels? || s.leader.LSavingData? ==>
          AllIn(c, s, SaveParked) && s.ids == s.trained && s.leader.models == s.trained)
    && (s.leader.LSavingData? ==> s.leader.data == s.trained)
    && (s.leader.LEvaluating? ==> AllIn(c, s, EvalParked))
  }

  // The leader is before the end of this round's save.
  predicate BeforeSave(pc: LeaderPc) {
    pc.LTop? || pc.LWork? || pc.LSaveWaitNone? || HoldsSave(pc)
  }

  ghost predicate SavesOk(c: Config, s: State) {
    && (forall i :: 0 <= i < |s.saves| ==>
          && s.saves[i].models == s.saves[i].data == s.saves[i].record == s.saves[i].trained
          && s.saves[i].trained.Keys == Everyone(c) && s.saves[i].trained[c.leader] == s.saves[i].round)
    && (forall i, j :: 0 <= i < j < |s.saves| ==> s.saves[i].round < s.saves[j].round)
    && (forall i :: 0 <= i < |s.saves| ==>
          s.saves[i].round <= s.round && (BeforeSave(s.leader) ==> s.saves[i].round < s.round))
  }

  ghost predicate StatesOk(c: Config, s: State) {
    c.keepsState ==> forall i :: 0 <= i < |s.saves| ==>
      && s.saves[i].round in s.states
      && s.states[s.saves[i].round] == CheckpointState(c.leader, s.saves[i].trained)
  }

  ghost predicate Domains(c: Config, s: State) {
    s.followers.Keys == c.followers && s.trained.Keys == Everyone(c) && s.ids.Keys <= Everyone(c)
  }

  ghost predicate FollowersOk(c: Config, s: State) {
    forall f :: f in c.followers ==> FollowerOk(c, s, f)
  }

  ghost predicate Inv(c: Config, s: State) {
    Domains(c, s) && FollowersOk(c, s) && ParkersOk(c, s) && LeaderOk(c, s) && SavesOk(c, s) && StatesOk(c, s)
  }

  lemma InitKeeps(c: Config)
    requires Valid(c)
    ensures Inv(c, Init(c))
  {
  }

  // ---- a leader step ----

  // Followers do not notice a step that leaves their entries and the waiting sets alone.
  lemma FollowersUnmoved(c: Config, s: State, t: State)
    requires FollowersOk(c, s)
    requires t.followers == s.followers
    requires t.save.waiters.Keys == s.save.waiters.Keys && t.eval.waiters.Keys == s.eval.waiters.Keys
    requires forall f :: f in c.followers && f in s.trained ==> f in t.trained && t.trained[f] == s.trained[f]
    requires forall f :: f in c.followers && f in s.ids ==> f in t.ids && t.ids[f] == s.ids[f]
    ensures FollowersOk(c, t)
  {
    forall f | f in c.followers ensures FollowerOk(c, t, f) {
      assert FollowerOk(c, s, f);
      assert f in t.save.waiters <==> f in t.save.waiters.Keys;
      assert f in s.save.waiters <==> f in s.save.waiters.Keys;
      assert f in t.eval.waiters <==> f in t.eval.waiters.Keys;
      assert f in s.eval.waiters <==> f in s.eval.waiters.Keys;
    }
  }

  // When every follower has arrived at the save, the dictionary is exactly what has been trained on.
  lemma SaveSeesEveryone(c: Config, s: State)
    requires Valid(c) && Domains(c, s) && FollowersOk(c, s) && ParkersOk(c, s) && LeaderOk(c, s)
    requires s.leader.LSaveWaitAll? && s.save.numReady == |c.followers|
    ensures AllIn(c, s, SaveParked) && s.ids == s.trained && s.ids.Keys == Everyone(c)
  {
    AllReadyMeansEveryone(s.save, c.followers);
    forall f | f in c.followers
      ensures s.followers[f].pc.SaveParked? && f in s.ids && s.ids[f] == s.trained[f]
    {
      assert FollowerOk(c, s, f);
      assert f in s.save.waiters.Keys;
    }
  }

  lemma EvalSeesEveryone(c: Config, s: State)
    requires Domains(c, s) && FollowersOk(c, s) && ParkersOk(c, s)
    requires s.eval.numReady == |c.followers|
    ensures AllIn(c, s, EvalParked)
  {
    AllReadyMeansEveryone(s.eval, c.followers);
    forall f | f in c.followers ensures s.followers[f].pc.EvalParked? {
      assert FollowerOk(c, s, f);
      assert f in s.eval.waiters.Keys;
    }
  }

  // A step that records no save keeps the history, as long as the round only grows.
  lemma SavesUnmoved(c: Config, s: State, t: State)
    requires SavesOk(c, s) && StatesOk(c, s)
    requires t.saves == s.saves && t.states == s.states && t.round >= s.round
    requires BeforeSave(t.leader) ==> BeforeSave(s.leader) || t.round > s.round
    ensures SavesOk(c, t) && StatesOk(c, t)
  {
  }

  lemma StoppingKeepsParkers(c: Config, s: State)
    requires ParkersOk(c, s)
    ensures ParkersOk(c, LeaderStops(s))
    ensures LeaderStops(s).save.waiters.Keys == s.save.waiters.Keys
    ensures LeaderStops(s).eval.waiters.Keys == s.eval.waiters.Keys
  {
    OpenSound(s.save);
    OpenSound(s.eval);
  }

  lemma LeaderStopsKeeps(c: Config, s: State)
    requires Valid(c) && Inv(c, s)
    ensures Inv(c, LeaderStops(s))
  {
    var t := LeaderStops(s);
    StoppingKeepsParkers(c, s);
    FollowersUnmoved(c, s, t);
    SavesUnmoved(c, s, t);
  }

  lemma BeginRoundKeeps(c: Config, s: State)
    requires Valid(c) && Inv(c, s) && s.leader.LTop?
    ensures Inv(c, BeginRound(c, s))
  {
    if s.runEnded || s.round >= c.total {
      LeaderStopsKeeps(c, s);
    } else {
      var t := s.(leader := LWork, ids := s.ids[c.leader := s.round]);
      FollowersUnmoved(c, s, t);
      SavesUnmoved(c, s, t);
    }
  }

  lemma FinishTrainingKeeps(c: Config, s: State, external: bool)
    requires Valid(c) && Inv(c, s) && s.leader.LWork?
    ensures Inv(c, FinishTraining(c, s, external))
  {
    FollowersUnmoved(c, s, FinishTraining(c, s, external));
    SavesUnmoved(c, s, FinishTraining(c, s, external));
  }

  lemma CloseSaveKeeps(c: Config, s: State)
    requires Valid(c) && Inv(c, s) && s.leader.LSaveWaitNone? && s.save.numReady == 0
    ensures Inv(c, s.(leader := LSaveWaitAll, save := Close(s.save)))
  {
    var t := s.(leader := LSaveWaitAll, save := Close(s.save));
    CloseSound(s.save);
    FollowersUnmoved(c, s, t);
    SavesUnmoved(c, s, t);
  }

  // What is gathered for the model checkpoints is exactly what each policy was last trained on.
  lemma GatheredIsTrained(c: Config, s: State)
    requires Valid(c) && Domains(c, s) && FollowersOk(c, s) && ParkersOk(c, s) && LeaderOk(c, s)
    requires s.leader.LSaveWaitAll? && s.save.numReady == |c.followers|
    ensures GatherModels(c, s) == s.(leader := LSavingModels(s.trained))
    ensures AllIn(c, s, SaveParked) && s.ids == s.trained
  {
    SaveSeesEveryone(c, s);
    var gathered := map m | m in Everyone(c) :: s.ids[m];
    assert gathered == s.trained;
    assert GatherModels(c, s) == s.(leader := LSavingModels(gathered));
  }

  lemma GatherModelsKeeps(c: Config, s: State)
    requires Valid(c) && Inv(c, s) && s.leader.LSaveWaitAll? && s.save.numReady == |c.followers|
    ensures Inv(c, GatherModels(c, s)) && GatherModels(c, s).leader == LSavingModels(s.trained)
  {
    GatheredIsTrained(c, s);
    var t := s.(leader := LSavingModels(s.trained));
    FollowersUnmoved(c, s, t);
    SavesUnmoved(c, s, t);
  }

  lemma SaveDataKeeps(c: Config, s: State)
    requires Valid(c) && Inv(c, s) && s.leader.LSavingModels?
    ensures Inv(c, s.(leader := LSavingData(s.leader.models, s.ids)))
  {
    var t := s.(leader := LSavingData(s.leader.models, s.ids));
    FollowersUnmoved(c, s, t);
    SavesUnmoved(c, s, t);
  }

  // The save that is recorded names, for every policy, the last rollout it was trained on.
  lemma RecordIsExact(c: Config, s: State)
    requires Valid(c) && Domains(c, s) && LeaderOk(c, s) && s.leader.LSavingData? && SavesOk(c, s)
    ensures var t := CommitSave(c, s, s.leader.models, s.leader.data); SavesOk(c, t) && t.leader.LUpdate?
  {
  }

  // The record file of this round is written, and no older one is touched.
  lemma RecordIsFiled(c: Config, s: State)
    requires Valid(c) && LeaderOk(c, s) && s.leader.LSavingData? && SavesOk(c, s) && StatesOk(c, s)
    ensures StatesOk(c, CommitSave(c, s, s.leader.models, s.leader.data))
  {
  }

  lemma CommitSaveKeeps(c: Config, s: State)
    requires Valid(c) && Inv(c, s) && s.leader.LSavingData?
    ensures Inv(c, CommitSave(c, s, s.leader.models, s.leader.data))
  {
    var t := CommitSave(c, s, s.leader.models, s.leader.data);
    RecordIsExact(c, s);
    RecordIsFiled(c, s);
    OpenSound(s.save);
    FollowersUnmoved(c, s, t);
  }

  lemma FinishUpdateKeeps(c: Config, s: State)
    requires Valid(c) && Inv(c, s) && s.leader.LUpdate?
    ensures Inv(c, FinishUpdate(c, s))
  {
    FollowersUnmoved(c, s, FinishUpdate(c, s));
    SavesUnmoved(c, s, FinishUpdate(c, s));
  }

  lemma CloseEvalKeeps(c: Config, s: State)
    requires Valid(c) && Inv(c, s) && s.leader.LEvalWaitNone? && s.eval.numReady == 0
    ensures Inv(c, s.(leader := LEvalWaitAll, eval := Close(s.eval)))
  {
    var t := s.(leader := LEvalWaitAll, eval := Close(s.eval));
    CloseSound(s.eval);
    FollowersUnmoved(c, s, t);
    SavesUnmoved(c, s, t);
  }

  lemma BeginEvalKeeps(c: Config, s: State)
    requires Valid(c) && Inv(c, s) && s.leader.LEvalWaitAll? && s.eval.numReady == |c.followers|
    ensures Inv(c, s.(leader := LEvaluating))
  {
    EvalSeesEveryone(c, s);
    FollowersUnmoved(c, s, s.(leader := LEvaluating));
    SavesUnmoved(c, s, s.(leader := LEvaluating));
  }

  lemma EndEvalKeeps(c: Config, s: State)
    requires Valid(c) && Inv(c, s) && s.leader.LEvaluating?
    ensures Inv(c, s.(leader := LExitCheck, eval := Open(s.eval)))
  {
    var t := s.(leader := LExitCheck, eval := Open(s.eval));
    OpenSound(s.eval);
    FollowersUnmoved(c, s, t);
    SavesUnmoved(c, s, t);
  }

  lemma NextRoundKeeps(c: Config, s: State)
    requires Valid(c) && Inv(c, s) && s.leader.LExitCheck?
    ensures Inv(c, s.(leader := LTop, round := s.round + 1))
  {
    var t := s.(leader := LTop, round := s.round + 1);
    FollowersUnmoved(c, s, t);
    SavesUnmoved(c, s, t);
  }

  lemma EndRoundKeeps(c: Config, s: State)
    requires Valid(c) && Inv(c, s) && s.leader.LExitCheck?
    ensures Inv(c, EndRound(c, s))
  {
    if ExitDue(c, s.round) {
      LeaderStopsKeeps(c, s);
    } else {
      NextRoundKeeps(c, s);
    }
  }

  lemma LeaderKeeps(c: Config, s: State, external: bool)
    requires Valid(c) && Inv(c, s) && LeaderNext(c, s, external).Some?
    ensures Inv(c, LeaderNext(c, s, external).value)
  {
    match s.leader
    case LTop => BeginRoundKeeps(c, s);
    case LWork => FinishTrainingKeeps(c, s, external);
    case LSaveWaitNone => CloseSaveKeeps(c, s);
    case LSaveWaitAll => GatherModelsKeeps(c, s);
    case LSavingModels(_) => SaveDataKeeps(c, s);
    case LSavingData(_, _) => CommitSaveKeeps(c, s);
    case LUpdate => FinishUpdateKeeps(c, s);
    case LEvalWaitNone => CloseEvalKeeps(c, s);
    case LEvalWaitAll => BeginEvalKeeps(c, s);
    case LEvaluating => EndEvalKeeps(c, s);
    case LExitCheck => EndRoundKeeps(c, s);
  }

  // ---- a follower step ----

  // While the leader saves or evaluates, no follower can take a step.
  lemma NobodyMoves(c: Config, s: State, f: Policy)
    requires Inv(c, s) && f in c.followers
    requires s.leader.LSavingModels? || s.leader.LSavingData? || s.leader.LEvaluating?
    ensures FollowerNext(c, s, f).None?
    ensures s.followers[f].pc.SaveParked? || s.followers[f].pc.EvalParked?
  {
    assert FollowerOk(c, s, f);
  }

  // t differs from s only in what belongs to follower f.
  ghost predicate OnlyTouches(s: State, t: State, f: Policy) {
    && t.leader == s.leader && t.round == s.round && t.saves == s.saves && t.states == s.states
    && f in s.followers && t.followers.Keys == s.followers.Keys
    && (forall g :: g in s.followers && g != f ==> t.followers[g] == s.followers[g])
    && (forall g :: g != f ==>
          (g in t.trained <==> g in s.trained) && (g in s.trained ==> t.trained[g] == s.trained[g]))
    && (forall g :: g != f ==> (g in t.ids <==> g in s.ids) && (g in s.ids ==> t.ids[g] == s.ids[g]))
    && (forall g :: g != f ==> (g in t.save.waiters <==> g in s.save.waiters))
    && (forall g :: g != f ==> (g in t.eval.waiters <==> g in s.eval.waiters))
  }

  lemma OthersUnmoved(c: Config, s: State, t: State, f: Policy)
    requires FollowersOk(c, s) && OnlyTouches(s, t, f) && FollowerOk(c, t, f)
    ensures FollowersOk(c, t)
  {
    forall g | g in c.followers ensures FollowerOk(c, t, g) {
      assert FollowerOk(c, s, g);
    }
  }

  lemma FollowerKeepsRest(c: Config, s: State, t: State, f: Policy)
    requires Valid(c) && f in c.followers && Inv(c, s) && OnlyTouches(s, t, f)
    requires !s.leader.LSavingModels? && !s.leader.LSavingData? && !s.leader.LEvaluating?
    ensures LeaderOk(c, t) && SavesOk(c, t) && StatesOk(c, t)
  {
    SavesUnmoved(c, s, t);
  }

  // What a step of f must re-establish for f itself.
  ghost predicate OwnOk(c: Config, s: State, t: State, f: Policy) {
    OnlyTouches(s, t, f) && FollowerOk(c, t, f) && Domains(c, t) && ParkersOk(c, t)
  }

  lemma QuittingKeepsOwn(c: Config, s: State, f: Policy)
    requires Valid(c) && f in c.followers && Domains(c, s) && FollowerOk(c, s, f) && ParkersOk(c, s)
    requires s.followers[f].pc.AtTop? && s.runEnded
    ensures OwnOk(c, s, FollowerNext(c, s, f).value, f)
  {
  }

  lemma StartingKeepsOwn(c: Config, s: State, f: Policy)
    requires Valid(c) && f in c.followers && Domains(c, s) && FollowerOk(c, s, f) && ParkersOk(c, s)
    requires s.followers[f].pc.AtTop? && !s.runEnded
    ensures OwnOk(c, s, FollowerNext(c, s, f).value, f)
  {
  }

  lemma FinishingKeepsOwn(c: Config, s: State, f: Policy)
    requires Valid(c) && f in c.followers && Domains(c, s) && FollowerOk(c, s, f) && ParkersOk(c, s)
    requires s.followers[f].pc.Working?
    ensures OwnOk(c, s, FollowerNext(c, s, f).value, f)
  {
  }

  lemma UpdatedKeepsOwn(c: Config, s: State, f: Policy)
    requires Valid(c) && f in c.followers && Domains(c, s) && FollowerOk(c, s, f) && ParkersOk(c, s)
    requires s.followers[f].pc.Updating?
    ensures OwnOk(c, s, FollowerNext(c, s, f).value, f)
  {
  }

  lemma SavePassKeepsOwn(c: Config, s: State, f: Policy)
    requires Valid(c) && f in c.followers && Domains(c, s) && FollowerOk(c, s, f) && ParkersOk(c, s)
    requires s.followers[f].pc.SaveEntering? && s.save.open
    ensures OwnOk(c, s, Put(s, f, Updating, s.followers[f].round), f)
  {
  }

  lemma SaveParkKeepsOwn(c: Config, s: State, f: Policy)
    requires Valid(c) && f in c.followers && Domains(c, s) && FollowerOk(c, s, f) && ParkersOk(c, s)
    requires s.followers[f].pc.SaveEntering? && !s.save.open
    ensures OwnOk(c, s, Put(s, f, SaveParked, s.followers[f].round).(save := Arrive(s.save, f)), f)
  {
    var t := Put(s, f, SaveParked, s.followers[f].round).(save := Arrive(s.save, f));
    assert ParkersOk(c, t) by { ArriveSound(s.save, f); }
    assert OnlyTouches(s, t, f);
    assert FollowerOk(c, t, f);
  }

  lemma EvalArrivalIs(c: Config, s: State, f: Policy)
    requires f in s.followers && s.followers[f].pc.EvalEntering?
    ensures FollowerNext(c, s, f) ==
            Some(if s.eval.open then Put(s, f, AtTop, s.followers[f].round + 1)
                 else Put(s, f, EvalParked, s.followers[f].round).(eval := Arrive(s.eval, f)))
  {
  }

  lemma SaveArrivalKeepsOwn(c: Config, s: State, f: Policy)
    requires Valid(c) && f in c.followers && Domains(c, s) && FollowerOk(c, s, f) && ParkersOk(c, s)
    requires s.followers[f].pc.SaveEntering?
    ensures OwnOk(c, s, FollowerNext(c, s, f).value, f)
  {
    if s.save.open { SavePassKeepsOwn(c, s, f); } else { SaveParkKeepsOwn(c, s, f); }
  }

  lemma SaveDepartureKeepsOwn(c: Config, s: State, f: Policy)
    requires Valid(c) && f in c.followers && Domains(c, s) && FollowerOk(c, s, f) && ParkersOk(c, s)
    requires s.followers[f].pc.SaveParked? && FollowerNext(c, s, f).Some?
    ensures OwnOk(c, s, FollowerNext(c, s, f).value, f)
  {
    DepartSound(s.save, f);
  }

  lemma EvalPassKeepsOwn(c: Config, s: State, f: Policy)
    requires Valid(c) && f in c.followers && Domains(c, s) && FollowerOk(c, s, f) && ParkersOk(c, s)
    requires s.followers[f].pc.EvalEntering? && s.eval.open
    ensures OwnOk(c, s, Put(s, f, AtTop, s.followers[f].round + 1), f)
  {
  }

  lemma EvalParkKeepsOwn(c: Config, s: State, f: Policy)
    requires Valid(c) && f in c.followers && Domains(c, s) && FollowerOk(c, s, f) && ParkersOk(c, s)
    requires s.followers[f].pc.EvalEntering? && !s.eval.open
    ensures OwnOk(c, s, Put(s, f, EvalParked, s.followers[f].round).(eval := Arrive(s.eval, f)), f)
  {
    var t := Put(s, f, EvalParked, s.followers[f].round).(eval := Arrive(s.eval, f));
    assert ParkersOk(c, t) by { ArriveSound(s.eval, f); }
    assert OnlyTouches(s, t, f);
    assert FollowerOk(c, t, f);
  }

  lemma EvalArrivalKeepsOwn(c: Config, s: State, f: Policy)
    requires Valid(c) && f in c.followers && Domains(c, s) && FollowerOk(c, s, f) && ParkersOk(c, s)
    requires s.followers[f].pc.EvalEntering?
    ensures OwnOk(c, s, FollowerNext(c, s, f).value, f)
  {
    EvalArrivalIs(c, s, f);
    if s.eval.open { EvalPassKeepsOwn(c, s, f); } else { EvalParkKeepsOwn(c, s, f); }
  }

  lemma EvalDepartureKeepsOwn(c: Config, s: State, f: Policy)
    requires Valid(c) && f in c.followers && Domains(c, s) && FollowerOk(c, s, f) && ParkersOk(c, s)
    requires s.followers[f].pc.EvalParked? && FollowerNext(c, s, f).Some?
    ensures OwnOk(c, s, FollowerNext(c, s, f).value, f)
  {
    DepartSound(s.eval, f);
  }

  lemma FollowerKeepsOwn(c: Config, s: State, f: Policy)
    requires Valid(c) && f in c.followers && Domains(c, s) && FollowerOk(c, s, f) && ParkersOk(c, s)
    requires FollowerNext(c, s, f).Some?
    ensures OwnOk(c, s, FollowerNext(c, s, f).value, f)
  {
    match s.followers[f].pc
    case SaveEntering => SaveArrivalKeepsOwn(c, s, f);
    case SaveParked => SaveDepartureKeepsOwn(c, s, f);
    case EvalEntering => EvalArrivalKeepsOwn(c, s, f);
    case EvalParked => EvalDepartureKeepsOwn(c, s, f);
    case AtTop => if s.runEnded { QuittingKeepsOwn(c, s, f); } else { StartingKeepsOwn(c, s, f); }
    case Working => FinishingKeepsOwn(c, s, f);
    case Updating => UpdatedKeepsOwn(c, s, f);
  }

  lemma FollowerKeeps(c: Config, s: State, f: Policy)
    requires Valid(c) && Inv(c, s) && f in s.followers && FollowerNext(c, s, f).Some?
    ensures Inv(c, FollowerNext(c, s, f).value)
  {
    if s.leader.LSavingModels? || s.leader.LSavingData? || s.leader.LEvaluating? {
      NobodyMoves(c, s, f);
      assert false;
    } else {
      var t := FollowerNext(c, s, f).value;
      assert FollowerOk(c, s, f);
      FollowerKeepsOwn(c, s, f);
      OthersUnmoved(c, s, t, f);
      FollowerKeepsRest(c, s, t, f);
    }
  }

  lemma FollowerFailureKeeps(c: Config, s: State, f: Policy)
    requires Valid(c) && Inv(c, s) && f in s.followers
    requires s.followers[f].pc.Working? || s.followers[f].pc.Updating?
    ensures Inv(c, Put(s, f, Gone, s.followers[f].round).(ended := true))
  {
    var t := Put(s, f, Gone, s.followers[f].round).(ended := true);
    assert FollowerOk(c, s, f);
    assert OnlyTouches(s, t, f);
    OthersUnmoved(c, s, t, f);
    FollowerKeepsRest(c, s, t, f);
  }

  lemma NextKeeps(c: Config, s: State, a: Action)
    requires Valid(c) && Inv(c, s) && Next(c, s, a).Some?
    ensures Inv(c, Next(c, s, a).value)
  {
    match a
    case LeaderMoves(external) => LeaderKeeps(c, s, external);
    case FollowerMoves(f) => FollowerKeeps(c, s, f);
    case LeaderFails => LeaderStopsKeeps(c, s);
    case FollowerFails(f) => FollowerFailureKeeps(c, s, f);
    case CancelPending =>
      FollowersUnmoved(c, s, s.(cancelled := true, runEnded := true));
      SavesUnmoved(c, s, s.(cancelled := true, runEnded := true));
  }

  lemma {:induction false} RunKeeps(c: Config, actions: seq<Action>)
    requires Valid(c) && Run(c, actions).Some?
    ensures Inv(c, Run(c, actions).value)
  {
    if actions == [] {
      InitKeeps(c);
    } else {
      RunKeeps(c, actions[..|actions| - 1]);
      NextKeeps(c, Run(c, actions[..|actions| - 1]).value, actions[|actions| - 1]);
    }
  }

  // ---- what a reader of a checkpoint, an eval or a log may rely on ----

  // A consistent cut: whatever the interleaving, every global save has an entry for every policy, and its model
  // checkpoints, the rollout executor and the record file all name the rollout that policy was last trained on.
  lemma GlobalSavesAreExact(c: Config, actions: seq<Action>, i: nat)
    requires Valid(c) && Run(c, actions).Some? && i < |Run(c, actions).value.saves|
    ensures var save := Run(c, actions).value.saves[i];
            && save.models == save.data == save.record == save.trained
            && save.trained.Keys == Everyone(c) && save.trained[c.leader] == save.round
  {
    RunKeeps(c, actions);
  }

  // No policy is ever missing from the dictionary when the models are gathered.
  lemma GatheringNeverFails(c: Config, actions: seq<Action>)
    requires Valid(c) && Run(c, actions).Some?
    requires var s := Run(c, actions).value; s.leader.LSaveWaitAll? && s.save.numReady == |c.followers|
    ensures var s := Run(c, actions).value; GatherModels(c, s).leader == LSavingModels(s.trained)
  {
    RunKeeps(c, actions);
    GatherModelsKeeps(c, Run(c, actions).value);
  }

  // From the first model checkpoint of a save to its record file, and during an eval, every follower is parked:
  // none trains, updates weights, starts a rollout or fails.
  lemma FollowersAreQuiet(c: Config, actions: seq<Action>, f: Policy)
    requires Valid(c) && Run(c, actions).Some? && f in c.followers
    requires var pc := Run(c, actions).value.leader; pc.LSavingModels? || pc.LSavingData? || pc.LEvaluating?
    ensures var s := Run(c, actions).value;
            && Next(c, s, FollowerMoves(f)).None? && Next(c, s, FollowerFails(f)).None?
            && f in s.followers && (s.followers[f].pc.SaveParked? || s.followers[f].pc.EvalParked?)
  {
    RunKeeps(c, actions);
    NobodyMoves(c, Run(c, actions).value, f);
  }

  // The rounds whose save, if due, is behind the leader.
  function Passed(s: State): nat {
    if BeforeSave(s.leader) || s.leader == LGone(false) then s.round else s.round + 1
  }

  ghost predicate Saved(saves: seq<Save>, r: nat) {
    exists i :: 0 <= i < |saves| && saves[i].round == r
  }

  predicate SaveRunsAt(c: Config, r: nat) {
    RunsAt(r, c.saveInterval, c.perEpoch, c.total)
  }

  ghost predicate DueSavesMade(c: Config, s: State) {
    c.leader in c.start &&
    forall r :: c.start[c.leader] <= r < Passed(s) && SaveRunsAt(c, r) ==> Saved(s.saves, r)
  }

  // t passes at most the round of s, and then only without a save being due or by recording one.
  ghost predicate Passes(c: Config, s: State, t: State) {
    || (t.saves == s.saves && Passed(t) <= Passed(s))
    || (t.saves == s.saves && Passed(t) == s.round + 1 && !SaveRunsAt(c, s.round))
    || (|t.saves| == |s.saves| + 1 && t.saves[..|s.saves|] == s.saves && t.saves[|s.saves|].round == s.round
        && Passed(t) == s.round + 1)
  }

  lemma StoppingPasses(c: Config, s: State)
    requires !s.leader.LGone?
    ensures Passes(c, s, LeaderStops(s))
  {
  }

  lemma UnmovedPasses(c: Config, s: State, t: State)
    requires t.leader == s.leader && t.round == s.round && t.saves == s.saves
    ensures Passes(c, s, t)
  {
  }

  lemma BeginRoundPasses(c: Config, s: State)
    requires s.leader.LTop?
    ensures Passes(c, s, BeginRound(c, s))
  {
  }

  lemma FinishTrainingPasses(c: Config, s: State, external: bool)
    requires s.leader.LWork?
    ensures Passes(c, s, FinishTraining(c, s, external))
  {
  }

  lemma GatheringPasses(c: Config, s: State)
    requires s.leader.LSaveWaitAll?
    ensures Passes(c, s, GatherModels(c, s))
  {
  }

  lemma CommittingPasses(c: Config, s: State)
    requires s.leader.LSavingData?
    ensures Passes(c, s, CommitSave(c, s, s.leader.models, s.leader.data))
  {
    if c.leader !in s.ids {
      StoppingPasses(c, s);
    } else {
      var save := Save(s.round, s.leader.models, s.leader.data, s.ids, s.trained);
      assert (s.saves + [save])[..|s.saves|] == s.saves;
    }
  }

  lemma EndRoundPasses(c: Config, s: State)
    requires s.leader.LExitCheck?
    ensures Passes(c, s, EndRound(c, s))
  {
  }

  lemma FinishUpdatePasses(c: Config, s: State)
    requires s.leader.LUpdate?
    ensures Passes(c, s, FinishUpdate(c, s))
  {
  }

  lemma ParkingPasses(c: Config, s: State, external: bool)
    requires s.leader.LSaveWaitNone? || s.leader.LSavingModels? || s.leader.LEvalWaitNone? || s.leader.LEvalWaitAll?
             || s.leader.LEvaluating?
    requires LeaderNext(c, s, external).Some?
    ensures Passes(c, s, LeaderNext(c, s, external).value)
  {
  }

  lemma LeaderPasses(c: Config, s: State, external: bool)
    requires LeaderNext(c, s, external).Some?
    ensures Passes(c, s, LeaderNext(c, s, external).value)
  {
    match s.leader
    case LTop => BeginRoundPasses(c, s);
    case LWork => FinishTrainingPasses(c, s, external);
    case LSaveWaitAll => GatheringPasses(c, s);
    case LSavingData(_, _) => CommittingPasses(c, s);
    case LExitCheck => EndRoundPasses(c, s);
    case LUpdate => FinishUpdatePasses(c, s);
    case LSaveWaitNone => ParkingPasses(c, s, external);
    case LSavingModels(_) => ParkingPasses(c, s, external);
    case LEvalWaitNone => ParkingPasses(c, s, external);
    case LEvalWaitAll => ParkingPasses(c, s, external);
    case LEvaluating => ParkingPasses(c, s, external);
  }

  lemma FollowerPasses(c: Config, s: State, f: Policy)
    requires Valid(c) && Inv(c, s) && f in s.followers && FollowerNext(c, s, f).Some?
    ensures Passes(c, s, FollowerNext(c, s, f).value)
  {
    assert FollowerOk(c, s, f);
    FollowerKeepsOwn(c, s, f);
  }

  lemma NextPasses(c: Config, s: State, a: Action)
    requires Valid(c) && Inv(c, s) && Next(c, s, a).Some?
    ensures Passes(c, s, Next(c, s, a).value)
  {
    match a
    case LeaderMoves(external) => LeaderPasses(c, s, external);
    case FollowerMoves(f) => FollowerPasses(c, s, f);
    case LeaderFails => StoppingPasses(c, s);
    case FollowerFails(f) => UnmovedPasses(c, s, Put(s, f, Gone, s.followers[f].round).(ended := true));
    case CancelPending => UnmovedPasses(c, s, s.(cancelled := true, runEnded := true));
  }

  lemma PassingKeeps(c: Config, s: State, t: State)
    requires DueSavesMade(c, s) && Passes(c, s, t)
    ensures DueSavesMade(c, t)
  {
    forall r | c.start[c.leader] <= r < Passed(t) && SaveRunsAt(c, r) ensures Saved(t.saves, r) {
      if r < Passed(s) {
        var i :| 0 <= i < |s.saves| && s.saves[i].round == r;
        assert t.saves[..|s.saves|][i] == s.saves[i];
      }
    }
  }

  // No due save is skipped: a leader that used up its rollouts, or left early after a whole round, has made every
  // periodic save, that of its last round included.
  lemma {:induction false} DueSavesAreMade(c: Config, actions: seq<Action>)
    requires Valid(c) && Run(c, actions).Some?
    ensures DueSavesMade(c, Run(c, actions).value)
  {
    if actions != [] {
      var before := actions[..|actions| - 1];
      var a := actions[|actions| - 1];
      DueSavesAreMade(c, before);
      RunKeeps(c, before);
      var s := Run(c, before).value;
      NextPasses(c, s, a);
      PassingKeeps(c, s, Next(c, s, a).value);
    }
  }

  // ---- the leader's waits end ----

  // Steps a follower has left until it is parked at the save while the leader waits for it there.
  function StepsToSave(pc: FollowerPc): nat {
    match pc
    case SaveParked => 0
    case SaveEntering => 1
    case Working => 2
    case AtTop => 3
    case EvalEntering => 4
    case EvalParked => 4
    case Updating => 5
    case Gone => 6
  }

  function StepsToEval(pc: FollowerPc): nat {
    match pc
    case EvalParked => 0
    case EvalEntering => 1
    case Updating => 2
    case SaveEntering => 3
    case SaveParked => 3
    case Working => 4
    case AtTop => 5
    case Gone => 6
  }

  // f has no step left and cannot move, or it can move and its move leaves it fewer steps.
  ghost predicate Approaches(c: Config, s: State, f: Policy, steps: FollowerPc -> nat) {
    f in s.followers &&
    match FollowerNext(c, s, f)
    case None => steps(s.followers[f].pc) == 0
    case Some(t) => f in t.followers && steps(t.followers[f].pc) < steps(s.followers[f].pc)
  }

  lemma ParkedSaveSteps(c: Config, s: State, f: Policy)
    requires FollowerOk(c, s, f) && ParkersOk(c, s) && s.leader.LSaveWaitAll? && !s.runEnded
    requires s.followers[f].pc.SaveParked? || s.followers[f].pc.EvalParked?
    ensures Approaches(c, s, f, StepsToSave)
  {
  }

  lemma RunningSaveSteps(c: Config, s: State, f: Policy)
    requires FollowerOk(c, s, f) && ParkersOk(c, s) && s.leader.LSaveWaitAll? && !s.runEnded
    requires !s.followers[f].pc.SaveParked? && !s.followers[f].pc.EvalParked? && !s.followers[f].pc.Gone?
    ensures Approaches(c, s, f, StepsToSave)
  {
  }

  lemma ParkedEvalSteps(c: Config, s: State, f: Policy)
    requires FollowerOk(c, s, f) && ParkersOk(c, s) && s.leader.LEvalWaitAll? && !s.runEnded
    requires s.followers[f].pc.SaveParked? || s.followers[f].pc.EvalParked?
    ensures Approaches(c, s, f, StepsToEval)
  {
  }

  lemma RunningEvalSteps(c: Config, s: State, f: Policy)
    requires FollowerOk(c, s, f) && ParkersOk(c, s) && s.leader.LEvalWaitAll? && !s.runEnded
    requires !s.followers[f].pc.SaveParked? && !s.followers[f].pc.EvalParked? && !s.followers[f].pc.Gone?
    ensures Approaches(c, s, f, StepsToEval)
  {
  }

  // While the leader waits for everybody, a live follower that is not parked there can move, and every move
  // brings it closer; so each follower moves at most five times before it is parked.
  lemma WaitsEnd(c: Config, actions: seq<Action>, f: Policy)
    requires Valid(c) && Run(c, actions).Some? && f in c.followers
    requires var s := Run(c, actions).value; !s.runEnded && f in s.followers && !s.followers[f].pc.Gone?
    ensures var s := Run(c, actions).value;
            && (s.leader.LSaveWaitAll? ==> Approaches(c, s, f, StepsToSave))
            && (s.leader.LEvalWaitAll? ==> Approaches(c, s, f, StepsToEval))
  {
    RunKeeps(c, actions);
    var s := Run(c, actions).value;
    var parked := s.followers[f].pc.SaveParked? || s.followers[f].pc.EvalParked?;
    if s.leader.LSaveWaitAll? {
      if parked { ParkedSaveSteps(c, s, f); } else { RunningSaveSteps(c, s, f); }
    } else if s.leader.LEvalWaitAll? {
      if parked { ParkedEvalSteps(c, s, f); } else { RunningEvalSteps(c, s, f); }
    }
  }

  // Once every follower is parked the leader goes on: neither wait can deadlock.
  lemma ParkedMeansReady(c: Config, s: State)
    requires Valid(c) && Inv(c, s)
    ensures AllIn(c, s, SaveParked) ==> s.save.numReady == |c.followers|
    ensures AllIn(c, s, EvalParked) ==> s.eval.numReady == |c.followers|
  {
    forall f | f in c.followers
      ensures s.followers[f].pc.SaveParked? ==> f in s.save.waiters.Keys
      ensures s.followers[f].pc.EvalParked? ==> f in s.eval.waiters.Keys
    {
      assert FollowerOk(c, s, f);
    }
    if AllIn(c, s, SaveParked) { assert s.save.waiters.Keys == c.followers; }
    if AllIn(c, s, EvalParked) { assert s.eval.waiters.Keys == c.followers; }
  }

  // A step of f from `before` to `after` of a parker that is draining: f leaves if it was there, nobody joins.
  ghost predicate Drains(before: Parker, after: Parker, f: Policy) {
    if f in before.waiters then after == Depart(before, f) && after.numReady == before.numReady - 1
    else after == before
  }

  function ParkerOf(s: State, atEval: bool): Parker {
    if atEval then s.eval else s.save
  }

  // The leader's wait is over exactly when the parker is empty; its waiters can move, and steps only drain it.
  ghost predicate DrainsWith(c: Config, s: State, f: Policy, atEval: bool) {
    && (forall external :: LeaderNext(c, s, external).Some? <==> ParkerOf(s, atEval).waiters == map[])
    && f in s.followers
    && (f in ParkerOf(s, atEval).waiters ==> FollowerNext(c, s, f).Some?)
    && (FollowerNext(c, s, f).Some? ==> Drains(ParkerOf(s, atEval), ParkerOf(FollowerNext(c, s, f).value, atEval), f))
  }

  lemma LeaderAwaitsEmpty(c: Config, s: State, external: bool)
    requires ParkersOk(c, s)
    ensures s.leader.LSaveWaitNone? ==> (LeaderNext(c, s, external).Some? <==> s.save.waiters == map[])
    ensures s.leader.LEvalWaitNone? ==> (LeaderNext(c, s, external).Some? <==> s.eval.waiters == map[])
  {
    EmptyIff(s.save);
    EmptyIff(s.eval);
  }

  lemma WokenCanMove(c: Config, s: State, f: Policy)
    requires FollowerOk(c, s, f) && ParkersOk(c, s)
    ensures f in s.save.waiters && s.save.open ==> FollowerNext(c, s, f).Some?
    ensures f in s.eval.waiters && s.eval.open ==> FollowerNext(c, s, f).Some?
  {
  }

  lemma SaveStepDrains(c: Config, s: State, f: Policy)
    requires FollowerOk(c, s, f) && s.save.open && FollowerNext(c, s, f).Some?
    ensures Drains(s.save, FollowerNext(c, s, f).value.save, f)
  {
  }

  lemma EvalStepDrains(c: Config, s: State, f: Policy)
    requires FollowerOk(c, s, f) && s.eval.open && FollowerNext(c, s, f).Some?
    ensures Drains(s.eval, FollowerNext(c, s, f).value.eval, f)
  {
  }

  // Before closing a parker the leader waits for it to drain. Its waiters were all woken, each can leave and no
  // follower joins them, so the wait is over after as many steps as there are waiters.
  lemma DrainingEnds(c: Config, actions: seq<Action>, f: Policy)
    requires Valid(c) && Run(c, actions).Some? && f in c.followers
    ensures var s := Run(c, actions).value;
            && (s.leader.LSaveWaitNone? ==> DrainsWith(c, s, f, false))
            && (s.leader.LEvalWaitNone? ==> DrainsWith(c, s, f, true))
  {
    RunKeeps(c, actions);
    var s := Run(c, actions).value;
    assert FollowerOk(c, s, f);
    forall external { LeaderAwaitsEmpty(c, s, external); }
    WokenCanMove(c, s, f);
    if FollowerNext(c, s, f).Some? && s.save.open { SaveStepDrains(c, s, f); }
    if FollowerNext(c, s, f).Some? && s.eval.open { EvalStepDrains(c, s, f); }
  }
}
