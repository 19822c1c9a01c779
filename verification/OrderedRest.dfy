/** When the whole server comes to rest under PRI or SPN. */
module OrderedRest {
  import opened Scheduler
  import opened Runs
  import opened Quiescence
  import opened Ordered
  import opened OrderedRuns

  /** Everything but a client that connects or a user who presses enter. */
  predicate ServerAction(a: Action) {
    a.Plain? ==> ServerStep(a.step)
  }

  ghost predicate OrderedAtRest(c: Config, o: Whole)
    requires ConfigOk(c)
  {
    forall a :: ServerAction(a) ==> !CanDo(c, o, a)
  }

  /** STS rests only between passes, so with an empty working list. */
  lemma RestsBetweenPasses(c: Config, o: Whole)
    requires ConfigOk(c) && OrderedAtRest(c, o) && StsPlace(o)
    ensures AtRest(c, o.base) && o.work == [] && AsFifo(o) == o.base
  {
    hide Enabled, ConfigOk;
    assert !CanDo(c, o, Merge);
    forall step | ServerStep(step) ensures !Enabled(c, o.base, step) {
      assert !CanDo(c, o, Plain(step));
    }
    ThreadsWait(c, o.base);
    assert o.base.lpl + [] == o.base.lpl;
  }

  /**
   * The server stops only when nothing waits for admission, for a pass, for the dispatcher or for
   * I/O, and every live process that was not let go of is suspended, its client told and not
   * answering; unless processes let go of hold all of MMP.
   */
  lemma EveryOrderedRunRestsForUsers(c: Config, keys: Keys, o: Whole, fd: nat)
    requires ConfigOk(c) && Reached(c, keys, o) && OrderedAtRest(c, o)
    requires c.ioThreads > 0 && |o.base.dropped| < c.mmp
    ensures o.base.lfifo == [] && o.base.feeds == Four([], [], [], []) && o.base.lpl == [] && o.base.lpb == []
    ensures o.work == [] && |o.base.net.live| == |o.base.lps| + |o.base.dropped|
    ensures fd in o.base.net.live && Proc(fd, o.base.net.live[fd]) !in o.base.dropped ==>
              Proc(fd, o.base.net.live[fd]) in o.base.lps
              && fd in o.base.net.clients && o.base.net.clients[fd] == Prompted
  {
    hide Reached, ConfigOk, OrderedInv, SharedInv, AtRest, OrderedAtRest;
    ReachedKept(c, keys, o);
    StandsAnywhere(c, keys, o);
    SharedOf(c, keys, o);
    RestsBetweenPasses(c, o);
    RestMeansNothingToDo(c, o.base);
    if fd in o.base.net.live && Proc(fd, o.base.net.live[fd]) !in o.base.dropped {
      RestMeansWaitingForUsers(c, o.base, fd);
    }
  }
}
