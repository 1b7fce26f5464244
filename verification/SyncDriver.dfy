// train.py: the synchronous loop, with every offload, peak-device and critic setting.
module SyncDriver {
  import opened Wrappers
  import opened Cluster

  // Engines are refreshed after rollout r when another rollout or an eval will use them.
  predicate HandsOff(a: Args, r: nat) {
    HasNext(a, r) || Periodic(a, a.evalInterval, r)
  }

  // ---- the state of the workers when iteration n begins ----

  function Drains(a: Args, n: nat): seq<Served> {
    if n <= a.start then [] else Drains(a, n - 1) + [Served(n - 1, n - 1)]
  }

  function Dropped(a: Args, g: Engine): Engine {
    var off := a.offloadRollout;
    g.(graph := g.graph && !off, kv := g.kv && !(off && a.kvInLevel),
       weights := g.weights && !(off && a.weightInLevel), intact := g.intact && !(off && a.weightInLevel))
  }

  function Serving(n: nat): Engine {
    Engine(n, true, true, true, true, false, false)
  }

  function EngineAt(a: Args, n: nat): Engine {
    if n > a.start && !HandsOff(a, n - 1) then Dropped(a, Serving(n - 1)) else Serving(n)
  }

  function SavesAt(a: Args, trigger: nat -> bool, n: nat): seq<(Model, nat)> {
    if n <= a.start then []
    else if SaveDue(a, trigger, n - 1) then
      SavesAt(a, trigger, n - 1)
      + (if ActorDue(a, n - 1) then [(Actor, n - 1)] else []) + (if a.useCritic then [(Critic, n - 1)] else [])
    else SavesAt(a, trigger, n - 1)
  }

  // The actor keeps its memory, and what it holds beyond its state, after its step only when nothing follows.
  function TrainerAt(a: Args, trigger: nat -> bool, n: nat): Trainer
    requires a.start <= n
  {
    Trainer(Steps(a, Actor, n), Steps(a, Critic, n),
            !a.offloadTrain || (n > a.start && !a.useCritic && !HandsOff(a, n - 1)), a.useCritic && !a.offloadTrain,
            if n > a.start && !HandsOff(a, n - 1) then Extras(a) else {},
            DataSavedAt(a, trigger, n), SavesAt(a, trigger, n))
  }

  // Evals before the loop: the eval-only run, and the check of the weights a run starts from.
  function EvalsBefore(a: Args): seq<Served> {
    (if a.total == 0 && a.evalInterval.Some? then [Served(0, a.start)] else [])
    + (if a.total > a.start && a.evalInterval.Some? && !a.skipFirstEval then
         [Served(if a.start == 0 then 0 else a.start - 1, a.start)] else [])
  }

  function EvalsAt(a: Args, n: nat): seq<Served> {
    if n <= a.start then EvalsBefore(a)
    else if Periodic(a, a.evalInterval, n - 1) then EvalsAt(a, n - 1) + [Served(n - 1, n)]
    else EvalsAt(a, n - 1)
  }

  function WorldAt(a: Args, trigger: nat -> bool, n: nat): World
    requires a.start <= n
  {
    World(n, TrainerAt(a, trigger, n), EngineAt(a, n), Feed(None, Drains(a, n), Drains(a, n), {}), EvalsAt(a, n), true)
  }

  // ---- the phases of one iteration ----

  lemma DrainCount(a: Args, n: nat)
    requires n >= a.start
    ensures |Drains(a, n)| == n - a.start
  {
  }

  method Collect(a: Args, before: Run, r: nat) returns (run: Run, data: nat)
    requires a.start <= r && Legal(a, before)
    requires before.now.engine == Serving(r) && before.now.clean
    requires before.now.feed == Feed(None, Drains(a, r), Drains(a, r), {})
    ensures Legal(a, run) && data == r
    ensures run.now == before.now.(feed := Feed(None, Drains(a, r + 1), Drains(a, r + 1), {r}))
  {
    DrainCount(a, r);
    run := Do(a, before, Get(r));
    run := Do(a, run, Await);
    data := r;
  }

  // Engine memory makes room for training; with its peak on the device the actor comes back between
  // the cache leaving and the weights leaving.
  method MakeRoom(a: Args, before: Run) returns (run: Run)
    requires Legal(a, before) && before.now.feed.pending.None? && !a.fullyAsync
    requires a.peakOnGpu ==> a.offloadTrain && a.offloadRollout && !a.useCritic
    ensures Legal(a, run)
    ensures run.now == before.now.(engine := Dropped(a, before.now.engine),
      trainer := before.now.trainer.(actorUp := before.now.trainer.actorUp || a.peakOnGpu))
  {
    run := before;
    if a.offloadRollout {
      if a.peakOnGpu {
        run := Do(a, run, Offload(true, a.kvInLevel, false));
        run := Do(a, run, Wake(Actor));
        if a.weightInLevel { run := Do(a, run, Offload(false, false, true)); }
      } else {
        run := Do(a, run, Offload(true, a.kvInLevel, a.weightInLevel));
      }
    }
  }

  function SavedAll(a: Args, t: Trainer, r: nat): Trainer {
    var dataSaved := t.(dataSaved := Some(r));
    var actorSaved := if ActorDue(a, r) then Saved(a, dataSaved, Actor, r) else dataSaved;
    if a.useCritic then Saved(a, actorSaved, Critic, r) else actorSaved
  }

  // Data progress is persisted before any model is.
  method SaveAll(a: Args, before: Run, r: nat) returns (run: Run)
    requires Legal(a, before)
    requires before.now.released == r + 1 && EnginesYielded(a, before.now.engine)
    requires ActorDue(a, r) ==> before.now.trainer.actorUp || (a.useCritic && a.offloadTrain)
    requires a.useCritic ==> before.now.trainer.criticUp || a.offloadTrain
    ensures Legal(a, run) && run.now == before.now.(trainer := SavedAll(a, before.now.trainer, r))
  {
    run := Do(a, before, SaveData(r));
    if !a.useCritic || r >= a.criticOnly { run := SaveTrainer(a, run, Actor, r); }
    if a.useCritic { run := SaveTrainer(a, run, Critic, r); }
  }

  // The trainers once r is trained on and, when due, saved.
  function TrainerDuring(a: Args, trigger: nat -> bool, r: nat): Trainer
    requires a.start <= r
  {
    var next := TrainerAt(a, trigger, r + 1);
    next.(actorUp := next.actorUp || !a.useCritic, extras := Extras(a))
  }

  // The step on r, and the saves when they are due, take the trainers from one closed form to the next.
  lemma RoundTrainer(a: Args, trigger: nat -> bool, r: nat, t: Trainer)
    requires a.driver.Sync? && a.start <= r && (r > a.start ==> HandsOff(a, r - 1))
    requires a.peakOnGpu ==> a.offloadTrain && !a.useCritic
    requires t == TrainerAt(a, trigger, r).(actorUp := TrainerAt(a, trigger, r).actorUp || a.peakOnGpu)
    ensures var stepped := SteppedAll(a, t, r);
      && (ActorDue(a, r) ==> stepped.actorUp || (a.useCritic && a.offloadTrain))
      && (a.useCritic ==> stepped.criticUp || a.offloadTrain)
      && TrainerDuring(a, trigger, r) == if SaveDue(a, trigger, r) then SavedAll(a, stepped, r) else stepped
  {
  }

  method TrainRound(a: Args, trigger: nat -> bool, before: Run, r: nat, data: nat) returns (run: Run)
    requires a.driver.Sync? && a.start <= r == data && Legal(a, before)
    requires a.peakOnGpu ==> a.offloadTrain && a.offloadRollout && !a.useCritic
    requires r > a.start ==> HandsOff(a, r - 1)
    requires before.now.released == r && before.now.engine == Dropped(a, Serving(r))
    requires before.now.trainer == TrainerAt(a, trigger, r).(
      actorUp := TrainerAt(a, trigger, r).actorUp || a.peakOnGpu)
    requires before.now.feed == Feed(None, Drains(a, r + 1), Drains(a, r + 1), {r})
    ensures Legal(a, run)
    ensures run.now == before.now.(released := r + 1, trainer := TrainerDuring(a, trigger, r),
      feed := Feed(None, Drains(a, r + 1), Drains(a, r + 1), {}))
  {
    NotYetStepped(a, Actor, r, r);
    NotYetStepped(a, Critic, r, r);
    RoundTrainer(a, trigger, r, before.now.trainer);
    run := TrainOn(a, before, r, data);
    assert run.now.feed == Feed(None, Drains(a, r + 1), Drains(a, r + 1), {});
    if SaveDue(a, trigger, r) {
      run := SaveAll(a, run, r);
    }
  }

  // Weights go back to the engines before the actor leaves (peak on the device) or after it.
  method HandOff(a: Args, ghost trigger: nat -> bool, before: Run, r: nat) returns (run: Run)
    requires a.driver.Sync? && !a.fullyAsync && a.start <= r && Legal(a, before) && HandsOff(a, r)
    requires a.peakOnGpu ==> a.offloadTrain && a.offloadRollout && !a.useCritic
    requires before.now.released == r + 1 && before.now.engine == Dropped(a, Serving(r))
    requires before.now.trainer == TrainerDuring(a, trigger, r) && before.now.feed.pending.None?
    ensures Legal(a, run)
    ensures run.now == before.now.(engine := Serving(r + 1), trainer := TrainerAt(a, trigger, r + 1))
  {
    run := ReturnWeights(a, before);
    assert run.now.trainer == TrainerAt(a, trigger, r + 1);
    run := Do(a, run, UpdateWeights);
    if a.offloadRollout { run := Do(a, run, Onload(true, true, false)); }
  }

  // The actor, still resident, gives up what it holds beyond its state.
  method TrimActor(a: Args, before: Run) returns (run: Run)
    requires Legal(a, before) && before.now.trainer.extras <= Extras(a) && (a.lora ==> a.offloadTrain)
    ensures Legal(a, run) && run.now == before.now.(trainer := before.now.trainer.(extras := {}))
  {
    run := Do(a, before, ClearMemory);
    if a.lora { run := Do(a, run, OffloadGradBuffer); }
  }

  method ReturnWeights(a: Args, before: Run) returns (run: Run)
    requires Legal(a, before)
    requires a.peakOnGpu ==> a.offloadTrain && a.offloadRollout && !a.useCritic
    requires a.offloadTrain ==> Asleep(Rested(a, before.now.trainer))
    requires before.now.trainer.extras <= Extras(a)
    requires a.peakOnGpu && !a.weightInLevel ==> before.now.engine.weights
    ensures Legal(a, run)
    ensures run.now == before.now.(trainer := Rested(a, before.now.trainer),
      engine := before.now.engine.(weights := before.now.engine.weights || (a.offloadRollout && a.weightInLevel)))
  {
    if a.peakOnGpu {
      run := TrimActor(a, before);
      if a.weightInLevel { run := Do(a, run, Onload(false, false, true)); }
      run := RestTrainer(a, run);
    } else {
      run := RestTrainer(a, before);
      if a.offloadRollout && a.weightInLevel { run := Do(a, run, Onload(false, false, true)); }
    }
  }

  // ---- the loop ----

  method Startup(a: Args, ghost trigger: nat -> bool) returns (run: Run)
    requires a.driver.Sync? && !a.fullyAsync
    ensures Legal(a, run) && run.now == WorldAt(a, trigger, a.start)
  {
    var boot := Boot(a);
    run := Run([], [boot], boot);
    run := Do(a, run, UpdateWeights);
    if a.offloadRollout { run := Do(a, run, Onload(true, true, false)); }
    run := EvalFirst(a, run);
  }

  method EvalFirst(a: Args, before: Run) returns (run: Run)
    requires Legal(a, before)
    requires before.now.engine == Serving(a.start) && before.now.evals == [] && before.now.clean
    ensures Legal(a, run) && run.now == before.now.(evals := EvalsBefore(a))
  {
    run := before;
    if a.total == 0 && a.evalInterval.Some? { run := Do(a, run, Eval(0)); }
    if a.total > a.start && a.evalInterval.Some? && !a.skipFirstEval {
      run := Do(a, run, Eval(if a.start == 0 then 0 else a.start - 1));
    }
  }

  method Iterate(a: Args, trigger: nat -> bool, before: Run, r: nat) returns (run: Run)
    requires a.driver.Sync? && !a.fullyAsync
    requires a.peakOnGpu ==> a.offloadTrain && a.offloadRollout && !a.useCritic
    requires a.start <= r < a.total && Legal(a, before) && before.now == WorldAt(a, trigger, r)
    ensures Legal(a, run) && run.now == WorldAt(a, trigger, r + 1)
  {
    assert r > a.start ==> HandsOff(a, r - 1);
    var data;
    run, data := Collect(a, before, r);
    run := MakeRoom(a, run);
    run := TrainRound(a, trigger, run, r, data);
    run := EndRound(a, trigger, run, r);
  }

  method EndRound(a: Args, ghost trigger: nat -> bool, before: Run, r: nat) returns (run: Run)
    requires a.driver.Sync? && !a.fullyAsync && a.start <= r && Legal(a, before)
    requires a.peakOnGpu ==> a.offloadTrain && a.offloadRollout && !a.useCritic
    requires before.now.released == r + 1 && before.now.engine == Dropped(a, Serving(r))
    requires before.now.trainer == TrainerDuring(a, trigger, r) && before.now.feed.pending.None?
    requires before.now.evals == EvalsAt(a, r) && before.now.clean
    ensures Legal(a, run)
    ensures run.now == before.now.(engine := EngineAt(a, r + 1), trainer := TrainerAt(a, trigger, r + 1),
      evals := EvalsAt(a, r + 1))
  {
    run := before;
    if HandsOff(a, r) {
      run := HandOff(a, trigger, run, r);
    }
    if Periodic(a, a.evalInterval, r) {
      run := Do(a, run, Eval(r));
    }
  }

  predicate Refused(a: Args) {
    a.fullyAsync || (a.peakOnGpu && !(a.offloadTrain && a.offloadRollout && !a.useCritic))
  }

  // The whole run. It is refused for a fully-async producer and for a device peak the settings cannot carry.
  method Train(a: Args, trigger: nat -> bool) returns (result: Option<Run>)
    requires a.driver.Sync?
    ensures result.None? <==> Refused(a)
    ensures result.Some? ==> Legal(a, result.value) && result.value.now == WorldAt(a, trigger, End(a))
  {
    if a.fullyAsync { return None; }
    if a.peakOnGpu && !(a.offloadTrain && a.offloadRollout && !a.useCritic) { return None; }
    var run := Startup(a, trigger);
    var r := a.start;
    while r < a.total
      invariant a.start <= r && (r <= a.total || r == a.start)
      invariant Legal(a, run) && run.now == WorldAt(a, trigger, r)
      invariant r > a.start && a.debugExit.Some? ==> r - a.start < a.debugExit.value
      decreases a.total - r
    {
      run := Iterate(a, trigger, run, r);
      r := r + 1;
      if a.debugExit.Some? && r - a.start >= a.debugExit.value {
        break;
      }
    }
    result := Some(run);
  }

  // ---- what the closed form means ----

  lemma {:induction false} DrainsOnPolicy(a: Args, n: nat)
    requires a.start <= n
    ensures |Drains(a, n)| == n - a.start
    ensures forall i :: 0 <= i < n - a.start ==> Drains(a, n)[i] == Served(a.start + i, a.start + i)
  {
    if n > a.start { DrainsOnPolicy(a, n - 1); }
  }

  // Every eval sees the training of the rollout it is labelled with, except the one of untrained weights that is
  // labelled 0; and nothing later, except in an eval-only run, whose one eval of its starting weights is labelled 0.
  lemma {:induction false} EvalsOnPolicy(a: Args, n: nat)
    requires a.start <= n
    ensures forall e :: e in EvalsAt(a, n) ==>
              e.version >= e.rollout + 1 || (a.start == 0 && e == Served(0, 0))
    ensures a.total > 0 ==> forall e :: e in EvalsAt(a, n) && e != Served(0, 0) ==> e.version == e.rollout + 1
  {
    if n > a.start { EvalsOnPolicy(a, n - 1); }
  }

  // Every rollout of a run is requested once, in order, from engines holding all actor training before it;
  // no data reference outlives the run, and no serving ever used weights that had been thrown away.
  lemma RunIsOnPolicy(a: Args, trigger: nat -> bool)
    ensures var w := WorldAt(a, trigger, End(a));
            && w.feed.issued == w.feed.arrived && |w.feed.issued| == End(a) - a.start
            && w.feed.live == {} && w.clean && w.released == End(a)
            && (forall i :: 0 <= i < |w.feed.arrived| ==> w.feed.arrived[i] == Served(a.start + i, a.start + i))
            && w.trainer.actor == Steps(a, Actor, End(a)) && w.trainer.critic == Steps(a, Critic, End(a))
  {
    DrainsOnPolicy(a, End(a));
  }
}
