// miles/utils/misc.py: when a periodic action (eval, save) runs.
module Schedule {
  import opened Arithmetic
  import opened Wrappers

  // should_run_periodic_action
  predicate RunsAt(r: nat, interval: Option<pos>, perEpoch: Option<pos>, total: nat) {
    interval.Some? &&
    (r + 1 == total || (r + 1) % interval.value == 0 || (perEpoch.Some? && (r + 1) % perEpoch.value == 0))
  }
}
