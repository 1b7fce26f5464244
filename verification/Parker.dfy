// miles/utils/multi_policy/parker.py: an event, the waiters blocked on it, and a counter of arrivals.
// A waiter that was woken runs on even if the event is cleared before it gets its turn.
module Parker {

  type Policy = nat

  datatype Parker = Parker(
    open: bool,                   // the event is set
    numReady: int,
    waiters: map<Policy, bool>)   // followers inside `await event.wait()`, and whether they were woken

  function Fresh(): Parker {
    Parker(true, 0, map[])
  }

  // The rest of maybe_park_follower after its yield: count, then pass through an open event or wait.
  function Arrive(p: Parker, f: Policy): Parker {
    if p.open then p.(numReady := p.numReady + 1 - 1)
    else p.(numReady := p.numReady + 1, waiters := p.waiters[f := false])
  }

  // A woken follower runs on.
  function Depart(p: Parker, f: Policy): Parker {
    p.(numReady := p.numReady - 1, waiters := p.waiters - {f})
  }

  function Close(p: Parker): Parker {
    p.(open := false)
  }

  function Open(p: Parker): Parker {
    p.(open := true, waiters := map f | f in p.waiters :: true)
  }

  // The counter counts the waiters, and waiters are woken exactly while the event is set.
  // The second half is what waiting for an empty parker before closing it buys.
  ghost predicate Sound(p: Parker) {
    p.numReady == |p.waiters| && forall f :: f in p.waiters ==> p.waiters[f] == p.open
  }

  lemma ArriveSound(p: Parker, f: Policy)
    requires Sound(p) && f !in p.waiters
    ensures Sound(Arrive(p, f))
    ensures Arrive(p, f).waiters.Keys == if p.open then p.waiters.Keys else p.waiters.Keys + {f}
  {
    if !p.open {
      assert p.waiters[f := false].Keys == p.waiters.Keys + {f};
    }
  }

  lemma DepartSound(p: Parker, f: Policy)
    requires Sound(p) && f in p.waiters
    ensures Sound(Depart(p, f)) && Depart(p, f).waiters.Keys == p.waiters.Keys - {f}
  {
    assert (p.waiters - {f}).Keys == p.waiters.Keys - {f};
    assert |p.waiters.Keys - {f}| == |p.waiters.Keys| - 1;
  }

  lemma EmptyIff(p: Parker)
    requires Sound(p)
    ensures p.numReady == 0 <==> p.waiters == map[]
  {
    assert |p.waiters| == |p.waiters.Keys|;
  }

  lemma CloseSound(p: Parker)
    requires Sound(p) && p.numReady == 0
    ensures Sound(Close(p)) && Close(p).waiters == map[]
  {
    assert p.waiters.Keys == {};
  }

  lemma OpenSound(p: Parker)
    requires Sound(p)
    ensures Sound(Open(p)) && Open(p).waiters.Keys == p.waiters.Keys
  {
    assert Open(p).waiters.Keys == p.waiters.Keys;
  }

  // Closing without waiting for an empty parker lets a woken follower run through the closed event.
  lemma ClosingEarlyLosesWaiters(f: Policy)
    ensures var p := Close(Open(Arrive(Close(Fresh()), f)));
            Sound(Open(Arrive(Close(Fresh()), f))) && !p.open && f in p.waiters && p.waiters[f]
  {
    var parked := Arrive(Close(Fresh()), f);
    ArriveSound(Close(Fresh()), f);
    OpenSound(parked);
  }

  lemma AllReadyMeansEveryone(p: Parker, everyone: set<Policy>)
    requires Sound(p) && p.waiters.Keys <= everyone && p.numReady == |everyone|
    ensures p.waiters.Keys == everyone
  {
    SubsetOfSameSize(p.waiters.Keys, everyone);
  }

  lemma SubsetOfSameSize(s: set<Policy>, t: set<Policy>)
    requires s <= t && |s| == |t|
    ensures s == t
  {
    assert |t - s| == |t| - |s|;
  }
}
