/** Handing tasks to workers and collecting results in whatever order they complete
    (tools/convert_torch_dist_to_hf_ray.py, lines 1163-1231). */
module Dispatch {
  import opened Sequences
  import opened Sorting

  /** Which submissions are in flight and on which worker, how many tasks were submitted, and the
      completed tasks in completion order. A task's submission is named by the task's position. */
  datatype State = State(pending: map<nat, nat>, submitted: nat, completed: seq<nat>)

  function Min(a: int, b: int): int { if a <= b then a else b }

  function FirstTasks(workers: nat): map<nat, nat> {
    if workers == 0 then map[] else FirstTasks(workers - 1)[workers - 1 := workers - 1]
  }

  /** One task per worker. */
  function Started(workers: nat): State {
    State(FirstTasks(workers), workers, [])
  }

  /** A result arrives: its worker gets the next task, if any is left. */
  function Completed(s: State, ref: nat, tasks: nat): State
    requires ref in s.pending
  {
    var rest := s.pending - {ref};
    if s.submitted < tasks
    then State(rest[s.submitted := s.pending[ref]], s.submitted + 1, s.completed + [ref])
    else State(rest, s.submitted, s.completed + [ref])
  }

  /** One round of the loop: the wait times out, or some pending submission is ready. */
  ghost predicate Step(s: State, s': State, tasks: nat) {
    s' == s || exists ref :: ref in s.pending && s' == Completed(s, ref, tasks)
  }

  ghost predicate IsRun(run: seq<State>, workers: nat, tasks: nat) {
    && run != [] && run[0] == Started(workers)
    && forall i :: 0 <= i < |run| - 1 ==> Step(run[i], run[i + 1], tasks)
  }

  /** A worker never holds two tasks. */
  ghost predicate OneEach(pending: map<nat, nat>, workers: nat) {
    && (forall ref :: ref in pending ==> pending[ref] < workers)
    && (forall a, b :: a in pending && b in pending && pending[a] == pending[b] ==> a == b)
  }

  /** Every submission is pending or completed, not both, and completed at most once. */
  ghost predicate Accounted(s: State) {
    && (forall i: nat :: i < s.submitted <==> i in s.pending || i in s.completed)
    && (forall i :: i in s.pending ==> i !in s.completed)
    && Distinct(s.completed)
    && |s.pending| + |s.completed| == s.submitted
  }

  ghost predicate Busy(pending: map<nat, nat>, worker: nat) {
    exists ref :: ref in pending && pending[ref] == worker
  }

  /** No submission is lost, duplicated or forgotten, and no worker idles while tasks remain. */
  ghost predicate Healthy(s: State, workers: nat, tasks: nat) {
    && s.submitted <= tasks
    && OneEach(s.pending, workers)
    && Accounted(s)
    && (s.submitted < tasks ==> forall w: nat :: w < workers ==> Busy(s.pending, w))
  }

  lemma {:induction false} FirstTasksAre(workers: nat)
    ensures forall i: nat :: i in FirstTasks(workers) <==> i < workers
    ensures forall i: nat :: i in FirstTasks(workers) ==> FirstTasks(workers)[i] == i
  {
    if workers > 0 {
      FirstTasksAre(workers - 1);
    }
  }

  lemma {:induction false} FirstTasksSpread(workers: nat)
    ensures forall i: nat :: i in FirstTasks(workers) <==> i < workers
    ensures forall i: nat :: i in FirstTasks(workers) ==> FirstTasks(workers)[i] == i
    ensures |FirstTasks(workers)| == workers
  {
    FirstTasksAre(workers);
    if workers > 0 {
      FirstTasksSpread(workers - 1);
      var before := FirstTasks(workers - 1);
      assert workers - 1 !in before;
      assert before[workers - 1 := workers - 1].Keys == before.Keys + {workers - 1};
    }
  }

  lemma StartedIsHealthy(workers: nat, tasks: nat)
    requires workers <= tasks
    ensures Healthy(Started(workers), workers, tasks)
  {
    FirstTasksSpread(workers);
    forall w: nat | w < workers ensures Busy(Started(workers).pending, w) {
      assert Started(workers).pending[w] == w;
    }
  }

  lemma CompletionCounts(s: State, ref: nat, tasks: nat)
    requires Accounted(s) && ref in s.pending
    ensures var s' := Completed(s, ref, tasks); |s'.pending| + |s'.completed| == s'.submitted
  {
    var rest := s.pending - {ref};
    assert rest.Keys == s.pending.Keys - {ref};
    assert s.submitted !in rest;
    var worker := s.pending[ref];
    assert rest[s.submitted := worker].Keys == rest.Keys + {s.submitted};
  }

  lemma CompletionIsAccounted(s: State, ref: nat, tasks: nat)
    requires Accounted(s) && ref in s.pending
    ensures Accounted(Completed(s, ref, tasks))
  {
    var s' := Completed(s, ref, tasks);
    assert s'.completed[|s.completed|] == ref;
    assert forall i :: i in s'.completed <==> i in s.completed || i == ref;
    assert forall i :: i in s'.pending <==> (i in s.pending && i != ref) || (s.submitted < tasks && i == s.submitted);
    CompletionCounts(s, ref, tasks);
  }

  lemma CompletionKeepsOneEach(s: State, ref: nat, workers: nat, tasks: nat)
    requires OneEach(s.pending, workers) && ref in s.pending
    ensures OneEach(Completed(s, ref, tasks).pending, workers)
  {
  }

  lemma CompletionStaysHealthy(s: State, ref: nat, workers: nat, tasks: nat)
    requires Healthy(s, workers, tasks) && ref in s.pending
    ensures Healthy(Completed(s, ref, tasks), workers, tasks)
  {
    CompletionIsAccounted(s, ref, tasks);
    CompletionKeepsOneEach(s, ref, workers, tasks);
    if s.submitted < tasks {
      BusyAfterRefill(s, ref, workers, tasks);
    }
  }

  lemma BusyAfterRefill(s: State, ref: nat, workers: nat, tasks: nat)
    requires Healthy(s, workers, tasks) && ref in s.pending && s.submitted < tasks
    ensures forall w: nat :: w < workers ==> Busy(Completed(s, ref, tasks).pending, w)
  {
    var pending := Completed(s, ref, tasks).pending;
    forall w: nat | w < workers ensures Busy(pending, w) {
      assert Busy(s.pending, w);
      var r :| r in s.pending && s.pending[r] == w;
      if r == ref {
        assert pending[s.submitted] == w;
      } else {
        assert r in pending && pending[r] == w;
      }
    }
  }

  /** Every state of every run is healthy, whatever the order in which results arrive. */
  lemma {:induction false} RunsAreHealthy(run: seq<State>, workers: nat, tasks: nat, i: nat)
    requires IsRun(run, workers, tasks) && workers <= tasks && i < |run|
    ensures Healthy(run[i], workers, tasks)
  {
    if i == 0 {
      StartedIsHealthy(workers, tasks);
    } else {
      RunsAreHealthy(run, workers, tasks, i - 1);
      assert Step(run[i - 1], run[i - 1 + 1], tasks);
      if run[i] != run[i - 1] {
        var ref :| ref in run[i - 1].pending && run[i] == Completed(run[i - 1], ref, tasks);
        CompletionStaysHealthy(run[i - 1], ref, workers, tasks);
      }
    }
  }

  /** When nothing is pending, every task was executed exactly once. */
  lemma NothingPendingMeansDone(s: State, workers: nat, tasks: nat)
    requires Healthy(s, workers, tasks) && s.pending == map[] && 0 < workers
    ensures s.submitted == tasks
    ensures multiset(s.completed) == multiset(Upto(tasks))
  {
    assert !Busy(s.pending, 0);
    DistinctIffNoRepeats(s.completed);
    DistinctIffNoRepeats(Upto(tasks));
    forall i: nat ensures multiset(s.completed)[i] == multiset(Upto(tasks))[i] {
      assert i in s.completed <==> i in multiset(s.completed);
      assert i in Upto(tasks) <==> i in multiset(Upto(tasks));
      assert i < tasks ==> Upto(tasks)[i] == i;
    }
  }

  /** A finished run has completed each task once; conversely a run that has not, can always go on. */
  lemma FinishedRunIsComplete(run: seq<State>, workers: nat, tasks: nat)
    requires IsRun(run, workers, tasks) && 0 < workers <= tasks
    ensures var last := run[|run| - 1];
            last.pending == map[] <==> multiset(last.completed) == multiset(Upto(tasks))
  {
    var last := run[|run| - 1];
    RunsAreHealthy(run, workers, tasks, |run| - 1);
    if last.pending == map[] {
      NothingPendingMeansDone(last, workers, tasks);
    }
    if multiset(last.completed) == multiset(Upto(tasks)) {
      assert |last.completed| == |multiset(last.completed)| == |Upto(tasks)| == tasks;
      assert |last.pending| == 0;
    }
  }

  // ---------- results ----------

  function Result<K, R>(tasks: seq<K>, convert: K -> R, i: nat): seq<R> {
    if i < |tasks| then [convert(tasks[i])] else []
  }

  /** The results of the tasks listed, in that order. */
  function ResultsOf<K, R>(tasks: seq<K>, convert: K -> R, order: seq<nat>): seq<R> {
    if order == [] then [] else Result(tasks, convert, order[0]) + ResultsOf(tasks, convert, order[1..])
  }

  lemma {:induction false} ResultsConcat<K, R>(tasks: seq<K>, convert: K -> R, a: seq<nat>, b: seq<nat>)
    ensures ResultsOf(tasks, convert, a + b) == ResultsOf(tasks, convert, a) + ResultsOf(tasks, convert, b)
  {
    if a == [] {
      assert a + b == b;
    } else {
      assert (a + b)[1..] == a[1..] + b;
      ResultsConcat(tasks, convert, a[1..], b);
    }
  }

  lemma {:induction false} ResultsPermute<K, R>(tasks: seq<K>, convert: K -> R, a: seq<nat>, b: seq<nat>)
    requires multiset(a) == multiset(b)
    ensures multiset(ResultsOf(tasks, convert, a)) == multiset(ResultsOf(tasks, convert, b))
  {
    if a == [] {
      assert |multiset(b)| == 0;
    } else {
      assert a[0] in multiset(b);
      var k :| 0 <= k < |b| && b[k] == a[0];
      var rest := RemoveAt(b, k);
      assert a == [a[0]] + a[1..];
      ResultsPermute(tasks, convert, a[1..], rest);
      MoveToFront(tasks, convert, b, k);
    }
  }

  lemma MoveToFront<K, R>(tasks: seq<K>, convert: K -> R, b: seq<nat>, k: nat)
    requires k < |b|
    ensures multiset(ResultsOf(tasks, convert, b)) ==
            multiset(Result(tasks, convert, b[k])) + multiset(ResultsOf(tasks, convert, b[..k] + b[k + 1..]))
  {
    assert b == b[..k] + ([b[k]] + b[k + 1..]);
    ResultsConcat(tasks, convert, b[..k], [b[k]] + b[k + 1..]);
    ResultsConcat(tasks, convert, b[..k], b[k + 1..]);
  }

  lemma {:induction false} ResultsInOrder<K, R>(tasks: seq<K>, convert: K -> R, n: nat)
    requires n <= |tasks|
    ensures ResultsOf(tasks, convert, Upto(n)) == Map(tasks[..n], convert)
  {
    if n > 0 {
      ResultsInOrder(tasks, convert, n - 1);
      var last: seq<nat> := [n - 1];
      assert Upto(n) == Upto(n - 1) + last;
      ResultsConcat(tasks, convert, Upto(n - 1), last);
      assert ResultsOf(tasks, convert, last) == Result(tasks, convert, n - 1) + ResultsOf(tasks, convert, last[1..]);
      assert tasks[..n] == tasks[..n - 1] + [tasks[n - 1]];
    }
  }

  ghost predicate NumberedInOrder<K, R>(tasks: seq<K>, convert: K -> R, number: R -> int) {
    forall i, j :: 0 <= i < j < |tasks| ==> number(convert(tasks[i])) < number(convert(tasks[j]))
  }

  /** Sorting the collected results by task number puts them back in task order. */
  lemma SortRestoresTaskOrder<K, R(!new)>(tasks: seq<K>, convert: K -> R, number: R -> int, order: seq<nat>)
    requires multiset(order) == multiset(Upto(|tasks|))
    requires NumberedInOrder(tasks, convert, number)
    ensures Sort(ResultsOf(tasks, convert, order), ByNumber(number)) == Map(tasks, convert)
  {
    var results := ResultsOf(tasks, convert, order);
    ByNumberIsPreorder(number);
    SortOrders(results, ByNumber(number));
    SortPermutes(results, ByNumber(number));
    ResultsBag(tasks, convert, order);
    MapIsNumbered(tasks, convert, number);
    NumberedArrangementIsUnique(Map(tasks, convert), Sort(results, ByNumber(number)), number);
  }

  lemma MapIsNumbered<K, R>(tasks: seq<K>, convert: K -> R, number: R -> int)
    requires NumberedInOrder(tasks, convert, number)
    ensures forall i, j :: 0 <= i < j < |Map(tasks, convert)| ==>
              number(Map(tasks, convert)[i]) < number(Map(tasks, convert)[j])
  {
  }

  lemma ResultsBag<K, R>(tasks: seq<K>, convert: K -> R, order: seq<nat>)
    requires multiset(order) == multiset(Upto(|tasks|))
    ensures multiset(ResultsOf(tasks, convert, order)) == multiset(Map(tasks, convert))
  {
    ResultsPermute(tasks, convert, order, Upto(|tasks|));
    ResultsInOrder(tasks, convert, |tasks|);
    assert tasks[..|tasks|] == tasks;
  }

  ghost predicate RunEndsIn(run: seq<State>, last: State, workers: nat, tasks: nat) {
    IsRun(run, workers, tasks) && run[|run| - 1] == last && Healthy(last, workers, tasks)
  }

  lemma ExtendRun(run: seq<State>, last: State, ref: nat, workers: nat, tasks: nat)
    requires RunEndsIn(run, last, workers, tasks) && ref in last.pending
    ensures RunEndsIn(run + [Completed(last, ref, tasks)], Completed(last, ref, tasks), workers, tasks)
    ensures ref < tasks && |last.completed| < tasks
  {
    CompletionStaysHealthy(last, ref, workers, tasks);
    var longer := run + [Completed(last, ref, tasks)];
    forall i | 0 <= i < |longer| - 1 ensures Step(longer[i], longer[i + 1], tasks) {
      if i < |run| - 1 {
        assert Step(run[i], run[i + 1], tasks);
      }
    }
    assert |last.pending| > 0;
  }

  /** `collect_ray_results`: `convert` is the remote call, and the choice of `ready` is the wait. The
      run that is returned records the loop's state at every round. */
  method CollectRayResults<K, R(!new)>(tasks: seq<K>, convert: K -> R, number: R -> int, concurrency: int)
    returns (results: seq<R>, run: seq<State>)
    ensures Min(concurrency, |tasks|) < 1 ==> results == []
    ensures Min(concurrency, |tasks|) >= 1 ==>
      IsRun(run, Min(concurrency, |tasks|), |tasks|) && run[|run| - 1].pending == map[]
    ensures Min(concurrency, |tasks|) >= 1 && NumberedInOrder(tasks, convert, number) ==>
      results == Map(tasks, convert)
  {
    var workerCount := Min(concurrency, |tasks|);
    results, run := [], [];
    if workerCount < 1 {
      return;
    }
    var pending, submitted := SubmitFirst(workerCount);
    StartedIsHealthy(workerCount, |tasks|);
    run := [State(pending, submitted, [])];
    var order: seq<nat> := [];
    while pending != map[]
      invariant RunEndsIn(run, State(pending, submitted, order), workerCount, |tasks|)
      invariant results == ResultsOf(tasks, convert, order)
      decreases |tasks| - |order|
    {
      var ready: nat :| ready in pending;
      ExtendRun(run, State(pending, submitted, order), ready, workerCount, |tasks|);
      OneMoreResult(tasks, convert, order, ready);
      results := results + [convert(tasks[ready])];
      pending, submitted := Refill(pending, submitted, ready, |tasks|, order);
      order := order + [ready];
      run := run + [State(pending, submitted, order)];
    }
    NothingPendingMeansDone(run[|run| - 1], workerCount, |tasks|);
    results := SortResults(tasks, convert, number, order, results);
  }

  /** The first loop: one task per worker. */
  method SubmitFirst(workerCount: nat) returns (pending: map<nat, nat>, submitted: nat)
    ensures State(pending, submitted, []) == Started(workerCount)
  {
    pending, submitted := map[], 0;
    while submitted < workerCount
      invariant submitted <= workerCount
      invariant pending == Started(submitted).pending
    {
      pending := pending[submitted := submitted];
      submitted := submitted + 1;
    }
  }

  /** The worker of a finished submission gets the next task, if any is left. */
  method Refill(pending: map<nat, nat>, submitted: nat, ready: nat, tasks: nat, ghost order: seq<nat>)
    returns (pending': map<nat, nat>, submitted': nat)
    requires ready in pending
    ensures State(pending', submitted', order + [ready]) == Completed(State(pending, submitted, order), ready, tasks)
  {
    var worker := pending[ready];
    pending', submitted' := pending - {ready}, submitted;
    if submitted < tasks {
      pending' := pending'[submitted := worker];
      submitted' := submitted + 1;
    }
  }

  lemma OneMoreResult<K, R>(tasks: seq<K>, convert: K -> R, order: seq<nat>, i: nat)
    requires i < |tasks|
    ensures ResultsOf(tasks, convert, order + [i]) == ResultsOf(tasks, convert, order) + [convert(tasks[i])]
  {
    var last: seq<nat> := [i];
    ResultsConcat(tasks, convert, order, last);
    assert ResultsOf(tasks, convert, last) == Result(tasks, convert, i) + ResultsOf(tasks, convert, last[1..]);
  }

  method SortResults<K, R(!new)>(tasks: seq<K>, convert: K -> R, number: R -> int, ghost order: seq<nat>,
                                 results: seq<R>)
    returns (sorted: seq<R>)
    requires multiset(order) == multiset(Upto(|tasks|))
    requires results == ResultsOf(tasks, convert, order)
    ensures NumberedInOrder(tasks, convert, number) ==> sorted == Map(tasks, convert)
  {
    sorted := Sort(results, ByNumber(number));
    if NumberedInOrder(tasks, convert, number) {
      SortRestoresTaskOrder(tasks, convert, number, order);
    }
  }
}
