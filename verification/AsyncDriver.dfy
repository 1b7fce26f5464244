// train_async.py: the pipelined training loop. `Train` is the loop; `WorldAt` is the closed form of
// where the workers stand when iteration n begins.
module AsyncDriver {
  import opened Wrappers
  import opened Arithmetic
  import opened Cluster

  predicate Due(a: Args, r: nat) {
    (r + 1) % a.interval == 0
  }

  // A fully-async producer whose weights are about to change is drained only afterwards.
  predicate Deferred(a: Args, r: nat) {
    a.fullyAsync && HasNext(a, r) && Due(a, r)
  }

  predicate EvalFirst(a: Args) {
    a.evalInterval.Some? && a.start == 0 && !a.skipFirstEval
  }

  // Offloading throws the engine weights away in every iteration.
  predicate DropsWeights(a: Args) {
    a.colocate && a.offloadRollout && a.weightInLevel
  }

  // ---- the state of the workers when iteration n begins ----

  // Rollouts trained on at the last weight update before iteration n.
  function SyncedAt(a: Args, n: nat): nat {
    if n - n % a.interval < a.start then a.start else n - n % a.interval
  }

  predicate IntactAt(a: Args, n: nat) {
    DropsWeights(a) && n > a.start ==> n % a.interval == 0
  }

  ghost predicate CleanAt(a: Args, n: nat) {
    DropsWeights(a) ==> forall m :: a.start < m <= n ==> m % a.interval == 0
  }

  // The engine version rollout r is drained from.
  function VersionFor(a: Args, r: nat): nat {
    if a.fullyAsync then SyncedAt(a, r)
    else if r <= a.start then a.start
    else SyncedAt(a, r - 1)
  }

  // The drains of rollouts start..n-1.
  function Drains(a: Args, n: nat): seq<Served> {
    if n <= a.start then [] else Drains(a, n - 1) + [Served(n - 1, VersionFor(a, n - 1))]
  }

  // The drain of rollout r was awaited before the weight update that precedes it.
  predicate DrainedEarly(a: Args, r: nat) {
    r > a.start && !a.fullyAsync && r % a.interval == 0
  }

  function FeedAt(a: Args, n: nat): Feed {
    if n > a.start && n >= a.total then Feed(None, Drains(a, n), Drains(a, n), {})
    else if DrainedEarly(a, n) then Feed(None, Drains(a, n + 1), Drains(a, n + 1), {n})
    else Feed(Some(n), Drains(a, n + 1), Drains(a, n), {})
  }

  function EngineAt(a: Args, n: nat): Engine {
    Engine(SyncedAt(a, n), IntactAt(a, n), true, true, true, false, false)
  }

  function SavesAt(a: Args, trigger: nat -> bool, n: nat): seq<(Model, nat)> {
    if n <= a.start then []
    else if SaveDue(a, trigger, n - 1) then
      SavesAt(a, trigger, n - 1) + [(Actor, n - 1)] + (if a.useCritic then [(Critic, n - 1)] else [])
    else SavesAt(a, trigger, n - 1)
  }

  function TrainerAt(a: Args, trigger: nat -> bool, n: nat): Trainer
    requires a.start <= n
  {
    Trainer(Steps(a, Actor, n), Steps(a, Critic, n),
            !a.offloadTrain || (n > a.start && !a.useCritic && !a.colocate), a.useCritic && !a.offloadTrain,
            {}, DataSavedAt(a, trigger, n), SavesAt(a, trigger, n))
  }

  function EvalsAt(a: Args, n: nat): seq<Served> {
    if n <= a.start then (if EvalFirst(a) then [Served(0, a.start)] else [])
    else if Periodic(a, a.evalInterval, n - 1) then EvalsAt(a, n - 1) + [Served(n - 1, SyncedAt(a, n))]
    else EvalsAt(a, n - 1)
  }

  ghost function WorldAt(a: Args, trigger: nat -> bool, n: nat): World
    requires a.start <= n
  {
    World(n, TrainerAt(a, trigger, n), EngineAt(a, n), FeedAt(a, n), EvalsAt(a, n), CleanAt(a, n))
  }

  // ---- the phases of one iteration ----

  function Requested(w: World, r: nat): World {
    w.(feed := w.feed.(pending := Some(r), issued := w.feed.issued + [Served(r, w.engine.version)]),
       clean := w.clean && w.engine.intact)
  }

  function Received(w: World): World {
    if w.feed.pending.None? then w else
    w.(feed := w.feed.(pending := None,
                       arrived := w.feed.arrived + [Served(w.feed.pending.value, w.engine.version)],
                       live := w.feed.live + {w.feed.pending.value}),
       clean := w.clean && w.engine.intact)
  }

  // `await rollout_data_next_future`: a future that is already done just hands out its data again.
  method Receive(a: Args, before: Run, future: Option<nat>, current: nat) returns (run: Run, data: nat)
    requires Legal(a, before) && Ready(before.now.engine)
    requires before.now.feed.pending.Some? ==> future == before.now.feed.pending
    ensures Legal(a, run) && run.now == Received(before.now)
    ensures data == if future.Some? then future.value else current
  {
    run, data := before, current;
    if future.Some? {
      if before.now.feed.pending.Some? { run := Do(a, before, Await); }
      data := future.value;
    }
  }

  function Yielded(a: Args, g: Engine): Engine {
    var off := a.offloadRollout;
    g.(paused := true, flushed := true, graph := g.graph && !off, kv := g.kv && !(off && a.kvInLevel),
       weights := g.weights && !(off && a.weightInLevel), intact := g.intact && !(off && a.weightInLevel))
  }

  // Colocated engines stop and give up their memory.
  method YieldEngines(a: Args, before: Run) returns (run: Run)
    requires a.driver.Async? && Legal(a, before)
    requires before.now.feed.pending.None? && !before.now.engine.paused
    ensures Legal(a, run) && run.now == before.now.(engine := Yielded(a, before.now.engine))
  {
    run := Do(a, before, Pause);
    run := Do(a, run, FlushCache);
    if a.offloadRollout {
      run := Do(a, run, Offload(true, a.kvInLevel, false));
      if a.weightInLevel { run := Do(a, run, Offload(false, false, true)); }
    }
  }

  function SavedAll(a: Args, t: Trainer, r: nat): Trainer {
    var actorSaved := Saved(a, t, Actor, r);
    var modelsSaved := if a.useCritic then Saved(a, actorSaved, Critic, r) else actorSaved;
    modelsSaved.(dataSaved := Some(r))
  }

  method SaveAll(a: Args, before: Run, r: nat) returns (run: Run)
    requires Legal(a, before) && a.driver.Async?
    requires before.now.released == r + 1 && EnginesYielded(a, before.now.engine)
    requires before.now.trainer.actorUp || (a.useCritic && a.offloadTrain)
    requires a.useCritic ==> before.now.trainer.criticUp || a.offloadTrain
    ensures Legal(a, run) && run.now == before.now.(trainer := SavedAll(a, before.now.trainer, r))
  {
    run := SaveTrainer(a, before, Actor, r);
    if a.useCritic { run := SaveTrainer(a, run, Critic, r); }
    run := Do(a, run, SaveData(r));
  }

  // The trainer rests and the engine weights come back, still without their content if they were dropped.
  method ReturnWeights(a: Args, before: Run) returns (run: Run)
    requires a.driver.Async? && Legal(a, before) && before.now.trainer.extras == {}
    requires a.offloadTrain ==> Asleep(Rested(a, before.now.trainer))
    ensures Legal(a, run)
    ensures run.now == before.now.(trainer := Rested(a, before.now.trainer),
      engine := before.now.engine.(weights := before.now.engine.weights || (a.offloadRollout && a.weightInLevel)))
  {
    run := RestTrainer(a, before);
    if a.offloadRollout && a.weightInLevel { run := Do(a, run, Onload(false, false, true)); }
  }

  function Updated(w: World): World {
    w.(engine := w.engine.(version := w.released, intact := true))
  }

  function Published(a: Args, w: World, r: nat): World {
    var drained := if a.fullyAsync then w else Received(w);
    if Deferred(a, r) && !a.colocate then Requested(Updated(drained), r + 1) else Updated(drained)
  }

  // The weight update of a due iteration. Without a fully-async producer the next rollout is drained first.
  method Publish(a: Args, before: Run, r: nat, future: Option<nat>, current: nat)
    returns (run: Run, next: Option<nat>, data: nat)
    requires Legal(a, before) && before.now.engine.weights
    requires a.fullyAsync ==> before.now.feed.pending.None?
    requires !a.fullyAsync || !a.colocate ==> Ready(before.now.engine)
    requires before.now.feed.pending.Some? ==> future == before.now.feed.pending
    requires a.start + |before.now.feed.issued| == r + 1 || !HasNext(a, r) || !a.fullyAsync
    ensures Legal(a, run) && run.now == Published(a, before.now, r)
    ensures next == if !a.fullyAsync then None else if Deferred(a, r) && !a.colocate then Some(r + 1) else future
    ensures data == if !a.fullyAsync && future.Some? then future.value else current
  {
    run, next, data := before, future, current;
    if !a.fullyAsync {
      run, data := Receive(a, before, future, current);
      next := None;
    }
    run := Do(a, run, UpdateWeights);
    if Deferred(a, r) && !a.colocate {
      run := Do(a, run, Get(r + 1));
      next := Some(r + 1);
    }
  }

  function Resumed(a: Args, w: World, r: nat): World {
    var g := w.engine;
    var back := w.(engine := g.(kv := g.kv || a.offloadRollout, graph := g.graph || a.offloadRollout,
                               paused := false, flushed := false),
                   clean := w.clean && g.intact);
    if HasNext(a, r) then Requested(back, r + 1) else back
  }

  // Colocated engines take their memory back, go on generating and are drained for the next rollout.
  method Resume(a: Args, before: Run, r: nat, future: Option<nat>) returns (run: Run, next: Option<nat>)
    requires Legal(a, before) && before.now.engine.paused && before.now.engine.weights
    requires before.now.feed.pending.None?
    requires (before.now.engine.kv && before.now.engine.graph) || a.offloadRollout
    requires a.offloadTrain ==> Asleep(before.now.trainer)
    requires a.start + |before.now.feed.issued| == r + 1 || !HasNext(a, r)
    ensures Legal(a, run) && run.now == Resumed(a, before.now, r)
    ensures next == if HasNext(a, r) then Some(r + 1) else future
  {
    run, next := before, future;
    if a.offloadRollout { run := Do(a, run, Onload(true, true, false)); }
    run := Do(a, run, Continue);
    if HasNext(a, r) {
      run := Do(a, run, Get(r + 1));
      next := Some(r + 1);
    }
  }

  // ---- one iteration ----

  lemma SyncStep(a: Args, r: nat)
    requires a.start <= r
    ensures SyncedAt(a, r + 1) == if Due(a, r) then r + 1 else SyncedAt(a, r)
    ensures a.start <= SyncedAt(a, r) <= r
  {
    ModStep(r, a.interval);
  }

  lemma DrainCount(a: Args, n: nat)
    requires n >= a.start
    ensures |Drains(a, n)| == n - a.start
  {
  }

  // Early requests: the next rollout is drained while r is trained on.
  predicate RequestsEarly(a: Args, r: nat) {
    !a.colocate && HasNext(a, r) && !Deferred(a, r)
  }

  function FeedDuring(a: Args, r: nat, live: set<nat>): Feed {
    if RequestsEarly(a, r) then Feed(Some(r + 1), Drains(a, r + 2), Drains(a, r + 1), live)
    else Feed(None, Drains(a, r + 1), Drains(a, r + 1), live)
  }

  function EngineDuring(a: Args, r: nat): Engine {
    if a.colocate then Yielded(a, EngineAt(a, r)) else EngineAt(a, r)
  }

  // The future the loop holds while rollout r is trained on.
  function FutureDuring(a: Args, r: nat, future: Option<nat>): Option<nat> {
    if RequestsEarly(a, r) then Some(r + 1) else future
  }

  ghost predicate Begins(a: Args, r: nat, future: Option<nat>, current: nat) {
    if DrainedEarly(a, r) then future.None? && current == r else future == Some(r)
  }

  method BeginRound(a: Args, ghost trigger: nat -> bool, before: Run, r: nat, future: Option<nat>, current: nat)
    returns (run: Run, next: Option<nat>, data: nat)
    requires a.driver.Async? && (a.colocate ==> a.fullyAsync)
    requires a.start <= r < a.total && Legal(a, before)
    requires before.now == WorldAt(a, trigger, r) && Begins(a, r, future, current)
    ensures Legal(a, run) && data == r && next == FutureDuring(a, r, future)
    ensures run.now == World(r, TrainerAt(a, trigger, r), EngineDuring(a, r), FeedDuring(a, r, {r}),
                             EvalsAt(a, r), CleanAt(a, r))
  {
    SyncStep(a, r);
    DrainCount(a, r + 1);
    run, data := Receive(a, before, future, current);
    assert run.now.feed == Feed(None, Drains(a, r + 1), Drains(a, r + 1), {r}) by {
      ReceivedFeed(a, trigger, r);
    }
    next := future;
    if a.colocate {
      run := YieldEngines(a, run);
    } else if HasNext(a, r) && !Deferred(a, r) {
      run := Do(a, run, Get(r + 1));
      next := Some(r + 1);
    }
  }

  // Each drain is answered by the engine version it was requested from.
  lemma ReceivedFeed(a: Args, trigger: nat -> bool, r: nat)
    requires a.start <= r < a.total
    ensures Received(WorldAt(a, trigger, r)).feed == Feed(None, Drains(a, r + 1), Drains(a, r + 1), {r})
  {
    if r > a.start {
      SyncStep(a, r - 1);
    } else {
    }
  }

  // ---- training and saving ----

  // The trainers once r is trained on and, when due, saved.
  function TrainerDuring(a: Args, trigger: nat -> bool, r: nat): Trainer
    requires a.start <= r
  {
    var next := TrainerAt(a, trigger, r + 1);
    next.(actorUp := next.actorUp || !a.useCritic)
  }

  // The step on r, and the saves when they are due, take the trainers from one closed form to the next.
  lemma RoundTrainer(a: Args, trigger: nat -> bool, r: nat)
    requires a.driver.Async? && a.start <= r
    ensures var stepped := SteppedAll(a, TrainerAt(a, trigger, r), r);
      && (stepped.actorUp || (a.useCritic && a.offloadTrain))
      && (a.useCritic ==> stepped.criticUp || a.offloadTrain)
      && TrainerDuring(a, trigger, r) == if SaveDue(a, trigger, r) then SavedAll(a, stepped, r) else stepped
  {
  }

  method TrainRound(a: Args, trigger: nat -> bool, before: Run, r: nat, data: nat) returns (run: Run)
    requires a.driver.Async? && a.start <= r == data && Legal(a, before)
    requires before.now == World(r, TrainerAt(a, trigger, r), EngineDuring(a, r), FeedDuring(a, r, {r}),
                                 EvalsAt(a, r), CleanAt(a, r))
    ensures Legal(a, run)
    ensures run.now == World(r + 1, TrainerDuring(a, trigger, r), EngineDuring(a, r), FeedDuring(a, r, {}),
                             EvalsAt(a, r), CleanAt(a, r))
  {
    NotYetStepped(a, Actor, r, r);
    NotYetStepped(a, Critic, r, r);
    RoundTrainer(a, trigger, r);
    run := TrainOn(a, before, r, data);
    assert run.now.feed == FeedDuring(a, r, {});
    if SaveDue(a, trigger, r) {
      run := SaveAll(a, run, r);
    }
  }

  // ---- publishing and resuming ----

  lemma UnpublishedWorld(a: Args, w: World, r: nat)
    requires a.start <= r < a.total && !a.colocate && !Due(a, r)
    requires w.released == r + 1 && w.engine == EngineAt(a, r) && w.feed == FeedDuring(a, r, {})
    requires w.clean == CleanAt(a, r)
    ensures w == w.(engine := EngineAt(a, r + 1), feed := FeedAt(a, r + 1), clean := CleanAt(a, r + 1))
  {
    SyncStep(a, r);
  }

  lemma ResumedWorld(a: Args, w: World, r: nat)
    requires a.fullyAsync && a.start <= r < a.total && a.colocate
    requires w.released == r + 1 && w.feed == FeedDuring(a, r, {}) && w.clean == CleanAt(a, r)
    requires w.engine == Yielded(a, EngineAt(a, r)).(weights := true)
    ensures Resumed(a, if Due(a, r) then Updated(w) else w, r)
      == w.(engine := EngineAt(a, r + 1), feed := FeedAt(a, r + 1), clean := CleanAt(a, r + 1))
  {
    SyncStep(a, r);
  }

  method PublishRound(a: Args, ghost trigger: nat -> bool, before: Run, r: nat, future: Option<nat>, current: nat)
    returns (run: Run, next: Option<nat>, data: nat)
    requires a.driver.Async? && (a.colocate ==> a.fullyAsync)
    requires a.start <= r < a.total && current == r && Legal(a, before)
    requires before.now == World(r + 1, TrainerDuring(a, trigger, r), EngineDuring(a, r), FeedDuring(a, r, {}),
                                 EvalsAt(a, r), CleanAt(a, r))
    requires RequestsEarly(a, r) ==> future == Some(r + 1)
    ensures Legal(a, run)
    ensures run.now == World(r + 1, TrainerAt(a, trigger, r + 1), EngineAt(a, r + 1), FeedAt(a, r + 1),
                             EvalsAt(a, r), CleanAt(a, r + 1))
    ensures HasNext(a, r) ==> Begins(a, r + 1, next, data)
  {
    if a.colocate {
      run, next := ResumeRound(a, trigger, before, r, future);
      data := current;
    } else {
      run, next, data := UpdateRound(a, trigger, before, r, future, current);
    }
  }

  // The end of an iteration with engines of their own.
  method UpdateRound(a: Args, ghost trigger: nat -> bool, before: Run, r: nat, future: Option<nat>, current: nat)
    returns (run: Run, next: Option<nat>, data: nat)
    requires !a.colocate
    requires a.start <= r < a.total && current == r && Legal(a, before)
    requires before.now == World(r + 1, TrainerDuring(a, trigger, r), EngineDuring(a, r), FeedDuring(a, r, {}),
                                 EvalsAt(a, r), CleanAt(a, r))
    requires RequestsEarly(a, r) ==> future == Some(r + 1)
    ensures Legal(a, run)
    ensures run.now == World(r + 1, TrainerAt(a, trigger, r + 1), EngineAt(a, r + 1), FeedAt(a, r + 1),
                             EvalsAt(a, r), CleanAt(a, r + 1))
    ensures HasNext(a, r) ==> Begins(a, r + 1, next, data)
  {
    DrainCount(a, r + 1);
    run, next, data := before, future, current;
    if Due(a, r) {
      run, next, data := Publish(a, run, r, future, current);
    } else {
      UnpublishedWorld(a, before.now, r);
    }
  }

  // The end of an iteration with colocated engines.
  method ResumeRound(a: Args, ghost trigger: nat -> bool, before: Run, r: nat, future: Option<nat>)
    returns (run: Run, next: Option<nat>)
    requires a.driver.Async? && a.colocate && a.fullyAsync
    requires a.start <= r < a.total && Legal(a, before)
    requires before.now == World(r + 1, TrainerDuring(a, trigger, r), EngineDuring(a, r), FeedDuring(a, r, {}),
                                 EvalsAt(a, r), CleanAt(a, r))
    ensures Legal(a, run)
    ensures run.now == World(r + 1, TrainerAt(a, trigger, r + 1), EngineAt(a, r + 1), FeedAt(a, r + 1),
                             EvalsAt(a, r), CleanAt(a, r + 1))
    ensures HasNext(a, r) ==> Begins(a, r + 1, next, r)
  {
    DrainCount(a, r + 1);
    run := ReturnWeights(a, before);
    ghost var back := run.now;
    ResumedWorld(a, back, r);
    next := future;
    if Due(a, r) {
      var data;
      run, next, data := Publish(a, run, r, future, r);
    }
    run, next := Resume(a, run, r, next);
  }

  // ---- the loop ----

  // The workers once the first weights are published and the engines onloaded.
  method BringUp(a: Args) returns (run: Run)
    ensures Legal(a, run)
    ensures run.now == Boot(a).(engine := Engine(a.start, true, true, true, true, false, false))
  {
    var boot := Boot(a);
    run := Run([], [boot], boot);
    run := Do(a, run, UpdateWeights);
    if a.offloadRollout { run := Do(a, run, Onload(true, true, false)); }
  }

  lemma FirstWorld(a: Args, trigger: nat -> bool)
    ensures WorldAt(a, trigger, a.start)
         == Requested(Boot(a).(engine := Engine(a.start, true, true, true, true, false, false),
                               evals := EvalsAt(a, a.start)), a.start)
  {
    SyncStep(a, a.start);
  }

  // The workers before the loop: weights published, engines onloaded, rollout `start` being drained.
  method Startup(a: Args, ghost trigger: nat -> bool) returns (run: Run)
    ensures Legal(a, run) && run.now == WorldAt(a, trigger, a.start)
  {
    FirstWorld(a, trigger);
    run := BringUp(a);
    if EvalFirst(a) { run := Do(a, run, Eval(0)); }
    run := Do(a, run, Get(a.start));
  }

  method Iterate(a: Args, trigger: nat -> bool, before: Run, r: nat, future: Option<nat>, current: nat)
    returns (run: Run, next: Option<nat>, data: nat)
    requires a.driver.Async? && (a.colocate ==> a.fullyAsync)
    requires a.start <= r < a.total && Legal(a, before)
    requires before.now == WorldAt(a, trigger, r) && Begins(a, r, future, current)
    ensures Legal(a, run) && run.now == WorldAt(a, trigger, r + 1)
    ensures HasNext(a, r) ==> Begins(a, r + 1, next, data)
  {
    run, next, data := BeginRound(a, trigger, before, r, future, current);
    run := TrainRound(a, trigger, run, r, data);
    run, next, data := PublishRound(a, trigger, run, r, next, data);
    if Periodic(a, a.evalInterval, r) {
      run := Do(a, run, Eval(r));
    }
  }

  // The whole run. It is refused only for colocation without a fully-async producer.
  method Train(a: Args, trigger: nat -> bool) returns (result: Option<Run>)
    requires a.driver.Async?
    ensures result.None? <==> a.colocate && !a.fullyAsync
    ensures result.Some? ==> Legal(a, result.value) && result.value.now == WorldAt(a, trigger, End(a))
  {
    if a.colocate && !a.fullyAsync { return None; }
    var run := Startup(a, trigger);
    var future, current := Some(a.start), 0;
    var r := a.start;
    while r < a.total
      invariant a.start <= r && (r <= a.total || r == a.start)
      invariant r < a.total ==> Begins(a, r, future, current)
      invariant Legal(a, run) && run.now == WorldAt(a, trigger, r)
      invariant r > a.start && a.debugExit.Some? ==> r - a.start < a.debugExit.value
      decreases a.total - r
    {
      run, future, current := Iterate(a, trigger, run, r, future, current);
      r := r + 1;
      if a.debugExit.Some? && r - a.start >= a.debugExit.value {
        break;
      }
    }
    result := Some(run);
  }

  // ---- what the closed form means ----

  lemma {:induction false} DrainsAt(a: Args, n: nat, i: nat)
    requires a.start + i < n
    ensures |Drains(a, n)| == n - a.start
    ensures Drains(a, n)[i] == Served(a.start + i, VersionFor(a, a.start + i))
  {
    DrainCount(a, n);
    DrainCount(a, n - 1);
    if a.start + i < n - 1 { DrainsAt(a, n - 1, i); }
  }

  // Without a fully-async producer a rollout lacks between 1 and `interval` trained rollouts,
  // and it lacks the full interval exactly at the multiples of it.
  lemma PipelinedLag(a: Args, r: nat)
    requires !a.fullyAsync && r > a.start
    ensures 1 <= r - VersionFor(a, r) <= a.interval
    ensures r - VersionFor(a, r) == a.interval <==> r % a.interval == 0 && r - a.interval >= a.start
    ensures VersionFor(a, r) == a.start || VersionFor(a, r) % a.interval == 0
  {
    var k := a.interval;
    ModStep(r - 1, k);
    MultipleBelow(r - 1, k);
  }

  lemma MultipleBelow(n: nat, k: nat)
    requires k > 0
    ensures 0 <= n - n % k && (n - n % k) % k == 0
  {
    assert n == (n / k) * k + n % k;
    DivisionIsUnique(n - n % k, k, n / k, 0);
  }

  // A fully-async producer is drained for r only when the engines lack fewer than `interval` trained rollouts.
  lemma FullyAsyncLag(a: Args, r: nat)
    requires a.fullyAsync && r >= a.start
    ensures 0 <= r - VersionFor(a, r) <= a.interval - 1
    ensures r - VersionFor(a, r) == a.interval - 1 <==> Due(a, r) && r - (a.interval - 1) >= a.start
    ensures VersionFor(a, r) == a.start || VersionFor(a, r) % a.interval == 0
  {
    ModStep(r, a.interval);
    MultipleBelow(r, a.interval);
  }

  // Every serving of a run uses published weights exactly when the weights are never thrown away
  // between two updates.
  lemma ServesPublishedWeightsIff(a: Args)
    requires a.start + 2 <= End(a)
    ensures CleanAt(a, End(a)) <==> !(a.colocate && a.offloadRollout && a.weightInLevel && a.interval > 1)
  {
    var s := a.start;
    ModStep(s + 1, a.interval);
    if DropsWeights(a) && a.interval > 1 {
      assert (s + 1) % a.interval == 0 ==> (s + 2) % a.interval == 1;
      assert !IntactAt(a, s + 1) || !IntactAt(a, s + 2);
    }
  }

  // With at most one iteration the single update decides.
  lemma ServesPublishedWeightsIffShort(a: Args)
    requires End(a) <= a.start + 1
    ensures CleanAt(a, End(a)) <==> !DropsWeights(a) || End(a) == a.start || Due(a, a.start)
  {
  }

  // What a finished run did: every rollout start..end-1 was requested, drained and trained on once, in order,
  // each request and its answer under one engine version; at most one further request is left over.
  lemma RunIsPipelined(a: Args, trigger: nat -> bool)
    ensures var end := End(a);
            var w := WorldAt(a, trigger, end);
            && w.released == end
            && w.trainer.actor == Steps(a, Actor, end) && w.trainer.critic == Steps(a, Critic, end)
            && |w.feed.arrived| >= end - a.start && |w.feed.issued| <= end - a.start + 1
            && w.feed.arrived <= w.feed.issued
            && forall i :: 0 <= i < |w.feed.issued| ==>
                 w.feed.issued[i] == Served(a.start + i, VersionFor(a, a.start + i))
  {
    var end := End(a);
    var w := WorldAt(a, trigger, end);
    DrainCount(a, end);
    DrainCount(a, end + 1);
    assert Drains(a, end) <= Drains(a, end + 1);
    forall i | 0 <= i < |w.feed.issued|
      ensures w.feed.issued[i] == Served(a.start + i, VersionFor(a, a.start + i))
    {
      DrainsAt(a, a.start + |w.feed.issued|, i);
    }
  }
}
