// The workers a training driver commands, as a state machine: every remote call of train.py and
// train_async.py is an event, `Allowed` says when the call is safe, `Apply` what it does.
// A driver run is safe when its whole log replays without breaking a rule.
module Cluster {
  import opened Wrappers
  import opened Arithmetic
  import opened Schedule

  datatype Model = Actor | Critic

  datatype Driver = Sync | Async

  datatype Args = Args(
    driver: Driver,
    fullyAsync: bool,
    colocate: bool,
    offloadTrain: bool,
    offloadRollout: bool,
    kvInLevel: bool,         // "kv_cache" in offload_rollout_level
    weightInLevel: bool,     // "weight" in offload_rollout_level
    peakOnGpu: bool,         // colocate_memory_peak_device == "gpu"
    lora: bool,
    useCritic: bool,
    criticOnly: nat,         // num_critic_only_steps
    start: nat,              // start_rollout_id
    total: nat,              // num_rollout
    interval: pos,           // update_weights_interval
    saveInterval: Option<pos>,
    evalInterval: Option<pos>,
    perEpoch: Option<pos>,   // num_rollout_per_epoch
    skipFirstEval: bool,     // skip_eval_before_train
    debugExit: Option<int>)  // debug_exit_after_rollout

  // Trainer and engines take turns on the same devices.
  predicate Shares(a: Args) {
    a.driver.Sync? || a.colocate
  }

  // colocate_memory_peak_device "gpu" as train.py admits it: a hand-off overlaps on the device, so that the host
  // copies of the actor and of the engine weights never do.
  predicate PeaksOnGpu(a: Args) {
    a.driver.Sync? && a.peakOnGpu && !a.useCritic
  }

  // What a resident actor holds on the device beyond its state once it has taken a step.
  datatype Extra = CachedMemory | GradBuffer

  // Followed only where the engine weights come back next to a resident actor.
  function Extras(a: Args): set<Extra> {
    if !PeaksOnGpu(a) then {} else if a.lora then {CachedMemory, GradBuffer} else {CachedMemory}
  }

  // A rollout and how many rollouts the engine weights that served it were trained on.
  datatype Served = Served(rollout: nat, version: nat)

  datatype Trainer = Trainer(
    actor: seq<nat>,         // rollouts the actor took a step on
    critic: seq<nat>,        // rollouts the critic took a step on
    actorUp: bool,           // the actor's memory is on the device
    criticUp: bool,
    extras: set<Extra>,
    dataSaved: Option<nat>,
    saved: seq<(Model, nat)>)

  datatype Engine = Engine(
    version: nat,            // rollouts trained on at the last weight update
    intact: bool,            // weight memory still holds what that update wrote
    weights: bool,           // weight memory is resident
    kv: bool,
    graph: bool,
    paused: bool,
    flushed: bool)           // paused, and the cache was emptied since

  datatype Feed = Feed(
    pending: Option<nat>,    // the get() in flight
    issued: seq<Served>,
    arrived: seq<Served>,
    live: set<nat>)          // rollouts whose data references are held

  datatype World = World(
    released: nat,           // rollouts start..released-1 are trained on and released
    trainer: Trainer,
    engine: Engine,
    feed: Feed,
    evals: seq<Served>,
    clean: bool)             // every serving so far ran on intact weights

  datatype Event =
    | UpdateWeights
    | Offload(dropGraph: bool, dropKv: bool, dropWeights: bool)
    | Onload(addGraph: bool, addKv: bool, addWeights: bool)
    | Pause
    | FlushCache
    | Continue
    | Get(id: nat)
    | Await
    | Eval(id: nat)
    | Train(model: Model, id: nat, data: nat)
    | DropData(data: nat)
    | Release(id: nat)
    | SaveModel(model: Model, id: nat)
    | SaveData(id: nat)
    | Sleep(model: Model)
    | Wake(model: Model)
    | ClearMemory
    | OffloadGradBuffer

  predicate Asleep(t: Trainer) {
    !t.actorUp && !t.criticUp
  }

  predicate Up(t: Trainer, m: Model) {
    if m.Actor? then t.actorUp else t.criticUp
  }

  function SetUp(t: Trainer, m: Model, up: bool): Trainer {
    if m.Actor? then t.(actorUp := up, extras := if up then t.extras else {}) else t.(criticUp := up)
  }

  function StepsOf(t: Trainer, m: Model): seq<nat> {
    if m.Actor? then t.actor else t.critic
  }

  // Engines start from their own checkpoint; cells that will be offloaded come up with weights only.
  function Boot(a: Args): World {
    World(a.start, Trainer([], [], !a.offloadTrain, a.useCritic && !a.offloadTrain, {}, None, []),
          Engine(a.start, false, true, !a.offloadRollout, !a.offloadRollout, false, false),
          Feed(None, [], [], {}), [], true)
  }

  // The actor trains on rollout r unless r is one of the critic-only warm-up steps.
  predicate ActorDue(a: Args, r: nat) {
    !a.useCritic || r >= a.criticOnly
  }

  predicate Ready(g: Engine) {
    g.weights && g.kv && g.graph && !g.paused
  }

  // A trainer may occupy the device only after the engines gave up what they are configured to give up.
  predicate EnginesYielded(a: Args, g: Engine) {
    Shares(a) && a.offloadRollout ==>
      (a.kvInLevel ==> !g.kv) && !g.graph && (a.weightInLevel && !a.peakOnGpu ==> !g.weights)
  }

  predicate Allowed(a: Args, w: World, e: Event) {
    match e
    case UpdateWeights => w.engine.weights && (!a.fullyAsync ==> w.feed.pending.None?)
    case Offload(_, _, dropWeights) =>
      && w.feed.pending.None? && (a.fullyAsync ==> w.engine.paused && w.engine.flushed)
      && (PeaksOnGpu(a) && dropWeights ==> w.trainer.actorUp)
    case Onload(_, addKv, addWeights) =>
      && (a.offloadTrain && addKv ==> Asleep(w.trainer))
      && (a.offloadTrain && addWeights && !a.peakOnGpu ==> Asleep(w.trainer))
      && (addWeights ==> w.trainer.extras == {})
    case Pause => w.feed.pending.None? && !w.engine.paused
    case FlushCache => w.engine.paused
    case Continue => w.engine.paused && w.engine.weights && w.engine.kv && w.engine.graph
    case Get(r) => w.feed.pending.None? && Ready(w.engine) && r == a.start + |w.feed.issued|
    case Await => w.feed.pending.Some? && Ready(w.engine)
    case Eval(_) => Ready(w.engine)
    case Train(m, r, d) =>
      && (m.Critic? ==> a.useCritic) && d == r == w.released && d in w.feed.live && EnginesYielded(a, w.engine)
      && r !in StepsOf(w.trainer, m)
      && (m.Actor? ==> ActorDue(a, r) && (a.useCritic ==> r in w.trainer.critic))
    case DropData(d) =>
      && d in w.feed.live && d == w.released
      && (a.useCritic ==> d in w.trainer.critic) && (ActorDue(a, d) ==> d in w.trainer.actor)
    case Release(r) => r == w.released && r !in w.feed.live
    case SaveModel(m, r) =>
      w.released == r + 1 && Up(w.trainer, m) && (a.driver.Sync? ==> w.trainer.dataSaved == Some(r))
    case SaveData(r) => w.released == r + 1
    case Sleep(m) => a.offloadTrain && (PeaksOnGpu(a) && m.Actor? ==> w.engine.weights && w.trainer.extras == {})
    case Wake(_) => a.offloadTrain && EnginesYielded(a, w.engine)
    case ClearMemory => true
    case OffloadGradBuffer => a.offloadTrain
  }

  function Apply(a: Args, w: World, e: Event): World
    requires Allowed(a, w, e)
  {
    var g, t, f := w.engine, w.trainer, w.feed;
    match e
    case UpdateWeights => w.(engine := g.(version := w.released, intact := true))
    case Offload(graph, kv, ws) =>
      w.(engine := g.(graph := g.graph && !graph, kv := g.kv && !kv, weights := g.weights && !ws,
                      intact := g.intact && !ws))
    case Onload(graph, kv, ws) =>
      w.(engine := g.(graph := g.graph || graph, kv := g.kv || kv, weights := g.weights || ws))
    case Pause => w.(engine := g.(paused := true))
    case FlushCache => w.(engine := g.(flushed := true))
    case Continue => w.(engine := g.(paused := false, flushed := false), clean := w.clean && g.intact)
    case Get(r) =>
      w.(feed := f.(pending := Some(r), issued := f.issued + [Served(r, g.version)]), clean := w.clean && g.intact)
    case Await =>
      w.(feed := f.(pending := None, arrived := f.arrived + [Served(f.pending.value, g.version)],
                    live := f.live + {f.pending.value}),
         clean := w.clean && g.intact)
    case Eval(r) => w.(evals := w.evals + [Served(r, g.version)], clean := w.clean && g.intact)
    case Train(m, r, _) =>
      w.(trainer := if m.Actor? then t.(actor := t.actor + [r], actorUp := true, extras := Extras(a))
                    else t.(critic := t.critic + [r], criticUp := true))
    case DropData(d) => w.(feed := f.(live := f.live - {d}))
    case Release(r) => w.(released := r + 1)
    case SaveModel(m, r) => w.(trainer := t.(saved := t.saved + [(m, r)]))
    case SaveData(r) => w.(trainer := t.(dataSaved := Some(r)))
    case Sleep(m) => w.(trainer := SetUp(t, m, false))
    case Wake(m) => w.(trainer := SetUp(t, m, true))
    case ClearMemory => w.(trainer := t.(extras := t.extras - {CachedMemory}))
    case OffloadGradBuffer => w.(trainer := t.(extras := t.extras - {GradBuffer}))
  }

  predicate Step(a: Args, w: World, e: Event, next: World) {
    Allowed(a, w, e) && next == Apply(a, w, e)
  }

  predicate Periodic(a: Args, interval: Option<pos>, r: nat) {
    RunsAt(r, interval, a.perEpoch, a.total)
  }

  predicate HasNext(a: Args, r: nat) {
    r + 1 < a.total
  }

  predicate SaveDue(a: Args, trigger: nat -> bool, r: nat) {
    trigger(r) || Periodic(a, a.saveInterval, r)
  }

  // The last rollout before n whose data progress was saved.
  function DataSavedAt(a: Args, trigger: nat -> bool, n: nat): Option<nat> {
    if n <= a.start then None
    else if SaveDue(a, trigger, n - 1) then Some(n - 1)
    else DataSavedAt(a, trigger, n - 1)
  }

  // The first rollout the loop does not reach: debug_exit_after_rollout ends it early, but never before one iteration.
  function End(a: Args): nat {
    if a.total <= a.start then a.start
    else match a.debugExit
      case None => a.total
      case Some(x) => if x <= 1 then a.start + 1 else if a.start + x < a.total then a.start + x else a.total
  }

  // A driver's run so far: the events it sent, the states between them and the state now.
  datatype Run = Run(log: seq<Event>, worlds: seq<World>, now: World)

  // The run starts at boot and every event was allowed where it happened.
  ghost predicate Legal(a: Args, run: Run) {
    && |run.worlds| == |run.log| + 1 && run.worlds[0] == Boot(a) && run.worlds[|run.log|] == run.now
    && forall i {:trigger run.log[i]} :: 0 <= i < |run.log| ==> Step(a, run.worlds[i], run.log[i], run.worlds[i + 1])
  }

  method Do(a: Args, run: Run, e: Event) returns (after: Run)
    requires Legal(a, run) && Allowed(a, run.now, e)
    ensures Legal(a, after) && after.now == Apply(a, run.now, e) && after.log == run.log + [e]
  {
    var w := Apply(a, run.now, e);
    after := Run(run.log + [e], run.worlds + [w], w);
  }

  // The rollouts among start..n-1 the actor (the critic) takes a step on.
  function Steps(a: Args, m: Model, n: nat): seq<nat>
    requires a.start <= n
  {
    if n == a.start then []
    else if (if m.Actor? then ActorDue(a, n - 1) else a.useCritic) then Steps(a, m, n - 1) + [n - 1]
    else Steps(a, m, n - 1)
  }

  lemma {:induction false} StepsMeaning(a: Args, m: Model, n: nat)
    requires a.start <= n
    ensures forall r :: r in Steps(a, m, n) <==>
              a.start <= r < n && (if m.Actor? then ActorDue(a, r) else a.useCritic)
    ensures Increasing(Steps(a, m, n))
  {
    if n > a.start {
      StepsMeaning(a, m, n - 1);
      AppendIncreasing(Steps(a, m, n - 1), n - 1);
    }
  }

  lemma NotYetStepped(a: Args, m: Model, n: nat, r: nat)
    requires a.start <= n <= r
    ensures r !in Steps(a, m, n)
  {
  }

  predicate Increasing(s: seq<nat>) {
    forall i, j :: 0 <= i < j < |s| ==> s[i] < s[j]
  }

  // ---- what the rules guarantee of every legal run, whatever driver sent the events ----

  // Requests and answers are matched in order; without a fully-async producer an answer carries the version
  // its request was made under, because no update is allowed in between.
  ghost predicate Matched(a: Args, w: World) {
    var f := w.feed;
    && |f.issued| == |f.arrived| + (if f.pending.Some? then 1 else 0)
    && (forall i :: 0 <= i < |f.issued| ==> f.issued[i].rollout == a.start + i)
    && (forall i :: 0 <= i < |f.arrived| ==> f.arrived[i].rollout == a.start + i)
    && (f.pending.Some? ==> f.pending.value == a.start + |f.arrived|)
    && (!a.fullyAsync ==>
          && f.arrived <= f.issued
          && (f.pending.Some? ==> f.issued[|f.arrived|].version == w.engine.version))
  }

  // Steps are taken in order, at most once per rollout, and only on rollouts whose data has arrived.
  ghost predicate Ordered(a: Args, w: World) {
    && StepsOrdered(a, w.trainer, w.released)
    && (forall r :: r in w.feed.live ==> a.start <= r < a.start + |w.feed.arrived|)
    && a.start <= w.engine.version <= w.released
  }

  ghost predicate StepsOrdered(a: Args, t: Trainer, released: nat) {
    && Increasing(t.actor) && Increasing(t.critic)
    && forall r :: r in t.actor || r in t.critic ==> a.start <= r <= released
  }

  lemma MatchedStep(a: Args, w: World, e: Event)
    requires Matched(a, w) && Allowed(a, w, e)
    ensures Matched(a, Apply(a, w, e))
  {
  }

  lemma OrderedStep(a: Args, w: World, e: Event)
    requires Matched(a, w) && Ordered(a, w) && Allowed(a, w, e)
    ensures Ordered(a, Apply(a, w, e))
  {
    var next := Apply(a, w, e);
    if e.Train? {
      StepOrdered(a, w, e);
    } else {
      assert StepsOrdered(a, next.trainer, next.released);
    }
  }

  lemma StepOrdered(a: Args, w: World, e: Event)
    requires Ordered(a, w) && Allowed(a, w, e) && e.Train?
    ensures StepsOrdered(a, Apply(a, w, e).trainer, w.released)
  {
    AppendIncreasing(StepsOf(w.trainer, e.model), e.id);
  }

  lemma AppendIncreasing(s: seq<nat>, r: nat)
    requires Increasing(s) && r !in s && forall x :: x in s ==> x <= r
    ensures Increasing(s + [r])
  {
    forall i | 0 <= i < |s| ensures s[i] < r { assert s[i] in s; }
  }

  lemma {:induction false} LegalRunsAreOrdered(a: Args, run: Run, i: nat)
    requires Legal(a, run) && i <= |run.log|
    ensures Matched(a, run.worlds[i]) && Ordered(a, run.worlds[i])
  {
    if i > 0 {
      LegalRunsAreOrdered(a, run, i - 1);
      assert Step(a, run.worlds[i - 1], run.log[i - 1], run.worlds[i]);
      MatchedStep(a, run.worlds[i - 1], run.log[i - 1]);
      OrderedStep(a, run.worlds[i - 1], run.log[i - 1]);
    }
  }

  // Where the two sides keep their weights during a hand-off, and what a flush is worth: nothing is served after it
  // until generation goes on.
  ghost predicate HandedOver(a: Args, w: World) {
    && (PeaksOnGpu(a) ==> w.engine.weights || w.trainer.actorUp)
    && (Shares(a) && a.offloadTrain && a.offloadRollout && a.weightInLevel && !a.peakOnGpu ==>
          !w.engine.weights || Asleep(w.trainer))
    && (w.engine.flushed ==> w.engine.paused && !Ready(w.engine))
  }

  // The setting decides which memory takes the peak, in every state of every legal run: on "gpu" the actor and the
  // engine weights are never both off the device, on "cpu" they are never both on it.
  lemma {:induction false} PeakIsOnOneDevice(a: Args, run: Run, i: nat)
    requires Legal(a, run) && i <= |run.log|
    ensures HandedOver(a, run.worlds[i])
  {
    if i > 0 {
      PeakIsOnOneDevice(a, run, i - 1);
      assert Step(a, run.worlds[i - 1], run.log[i - 1], run.worlds[i]);
      HandedOverStep(a, run.worlds[i - 1], run.log[i - 1]);
    }
  }

  lemma HandedOverStep(a: Args, w: World, e: Event)
    requires HandedOver(a, w) && Allowed(a, w, e)
    ensures HandedOver(a, Apply(a, w, e))
  {
  }

  // Trainer m after its step on r: with a critic and offloading it goes back to sleep at once.
  function Stepped(a: Args, t: Trainer, m: Model, r: nat): Trainer {
    var up := !(a.useCritic && a.offloadTrain);
    if m.Actor? then t.(actor := t.actor + [r], actorUp := up, extras := Extras(a))
    else t.(critic := t.critic + [r], criticUp := up)
  }

  method StepTrainer(a: Args, before: Run, m: Model, r: nat, data: nat) returns (run: Run)
    requires Legal(a, before) && Allowed(a, before.now, Train(m, r, data))
    ensures Legal(a, run) && run.now == before.now.(trainer := Stepped(a, before.now.trainer, m, r))
  {
    run := Do(a, before, Train(m, r, data));
    if a.useCritic && a.offloadTrain { run := Do(a, run, Sleep(m)); }
  }

  // The trainers after the whole step on r.
  function SteppedAll(a: Args, t: Trainer, r: nat): Trainer {
    var afterCritic := if a.useCritic then Stepped(a, t, Critic, r) else t;
    if ActorDue(a, r) then Stepped(a, afterCritic, Actor, r) else afterCritic
  }

  // One optimisation step on rollout r, as both drivers write it; then its data is dropped.
  method TrainOn(a: Args, before: Run, r: nat, data: nat) returns (run: Run)
    requires Legal(a, before)
    requires r == data == before.now.released && r in before.now.feed.live
    requires r !in before.now.trainer.actor && r !in before.now.trainer.critic
    requires EnginesYielded(a, before.now.engine)
    ensures Legal(a, run)
    ensures run.now == before.now.(released := r + 1, trainer := SteppedAll(a, before.now.trainer, r),
      feed := before.now.feed.(live := before.now.feed.live - {r}))
  {
    run := StepAll(a, before, r, data);
    run := Do(a, run, DropData(data));
    run := Do(a, run, Release(r));
  }

  method StepAll(a: Args, before: Run, r: nat, data: nat) returns (run: Run)
    requires Legal(a, before)
    requires r == data == before.now.released && r in before.now.feed.live
    requires r !in before.now.trainer.actor && r !in before.now.trainer.critic
    requires EnginesYielded(a, before.now.engine)
    ensures Legal(a, run)
    ensures run.now == before.now.(trainer := SteppedAll(a, before.now.trainer, r))
    ensures (a.useCritic ==> r in run.now.trainer.critic) && (ActorDue(a, r) ==> r in run.now.trainer.actor)
  {
    if a.useCritic {
      run := StepTrainer(a, before, Critic, r, data);
      if r >= a.criticOnly { run := StepTrainer(a, run, Actor, r, data); }
    } else {
      run := StepTrainer(a, before, Actor, r, data);
    }
  }

  // offload_train
  function Rested(a: Args, t: Trainer): Trainer {
    if a.useCritic then t
    else if a.offloadTrain then t.(actorUp := false, extras := {})
    else t.(extras := t.extras - {CachedMemory})
  }

  method RestTrainer(a: Args, before: Run) returns (run: Run)
    requires Legal(a, before)
    requires PeaksOnGpu(a) && a.offloadTrain ==> before.now.engine.weights && before.now.trainer.extras == {}
    ensures Legal(a, run) && run.now == before.now.(trainer := Rested(a, before.now.trainer))
  {
    run := before;
    if a.useCritic { return; }
    if a.offloadTrain {
      run := Do(a, run, Sleep(Actor));
    } else {
      run := Do(a, run, ClearMemory);
    }
  }

  // save_training_model
  function Saved(a: Args, t: Trainer, m: Model, r: nat): Trainer {
    var done := t.(saved := t.saved + [(m, r)]);
    if a.useCritic && a.offloadTrain then SetUp(done, m, false) else done
  }

  method SaveTrainer(a: Args, before: Run, m: Model, r: nat) returns (run: Run)
    requires Legal(a, before)
    requires before.now.released == r + 1
    requires a.driver.Sync? ==> before.now.trainer.dataSaved == Some(r)
    requires EnginesYielded(a, before.now.engine)
    requires Up(before.now.trainer, m) || (a.useCritic && a.offloadTrain)
    ensures Legal(a, run) && run.now == before.now.(trainer := Saved(a, before.now.trainer, m, r))
  {
    run := before;
    if a.useCritic && a.offloadTrain { run := Do(a, run, Wake(m)); }
    run := Do(a, run, SaveModel(m, r));
    if a.useCritic && a.offloadTrain { run := Do(a, run, Sleep(m)); }
  }
}
