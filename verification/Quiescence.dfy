/** When the whole server comes to rest. */
module Quiescence {
  import opened Scheduler
  import opened Conservation
  import opened Tokens
  import opened Protocol
  import opened Runs

  /** A step of a server thread: everything but a client that connects or a user who presses enter. */
  predicate ServerStep(step: Step) {
    !step.Connect? && !step.ClientResumes?
  }

  ghost predicate AtRest(c: Config, s: State)
    requires ConfigOk(c)
  {
    forall step :: ServerStep(step) ==> !Enabled(c, s, step)
  }

  predicate WorkerWaits(s: State, w: nat)
    requires w < |s.workers|
  {
    (s.workers[w] == WWait && s.sem.lpb == 0) || (s.workers[w] == WToken && s.sem.ioFree == 0)
  }

  // Nobody waits for a mutex: whoever holds one can go on.
  lemma NobodyHolds(c: Config, s: State)
    requires ConfigOk(c) && AtRest(c, s)
    ensures s.conn != CDelayed && forall f: Feed :: !FeedHeld(s, f)
    ensures !HoldsLpb(s.cpu) && !s.cpu.PSuspended? && !s.sts.SPushed?
  {
    assert !Enabled(c, s, ConnGoesOn) && !Enabled(c, s, StsGoesOn) && !Enabled(c, s, LateGoesOn);
    assert !Enabled(c, s, CpuGoesOn);
    forall w: nat | w < |s.workers| ensures s.workers[w] != WPushed && s.workers[w] != WPosted {
      assert !Enabled(c, s, WorkerGoesOn(w));
    }
  }

  // The threads that have something to do on their own are where they wait.
  lemma ThreadsWait(c: Config, s: State)
    requires ConfigOk(c) && AtRest(c, s)
    ensures s.conn == CIdle && s.sts == SWait && s.sem.stsIn == 0 && s.cpu == PWait && s.sem.lpl == 0
    ensures (s.late == LWait && s.sem.fifo == 0) || (s.late == LToken && s.sem.mmp == 0)
    ensures forall w: nat :: w < |s.workers| ==> WorkerWaits(s, w)
  {
    NobodyHolds(c, s);
    hide FeedHeld;
    assert !Enabled(c, s, ConnGoesOn) && !Enabled(c, s, StsGoesOn) && !Enabled(c, s, LateGoesOn);
    assert !Enabled(c, s, CpuGoesOn) && !Enabled(c, s, CpuSuspends);
    forall w: nat | w < |s.workers| ensures WorkerWaits(s, w) {
      assert !Enabled(c, s, WorkerGoesOn(w));
    }
  }

  lemma WorkersWait(c: Config, s: State)
    requires ConfigOk(c) && SharedInv(c, s) && AtRest(c, s)
    ensures forall w :: 0 <= w < |s.workers| ==> s.workers[w] == WWait
    ensures c.ioThreads > 0 ==> s.sem.lpb == 0
  {
    hide SharedInv, AtRest;
    ThreadsWait(c, s);
    EnoughWorkers(c, s);
    forall w: nat | w < |s.workers| ensures s.workers[w] == WWait {
      assert WorkerWaits(s, w);
      if s.workers[w] == WToken {
        WorkerNeverWaitsForPool(c, s, w);
      }
    }
    assert c.ioThreads > 0 ==> WorkerWaits(s, 0);
  }

  lemma EnoughWorkers(c: Config, s: State)
    requires ConfigOk(c) && SharedInv(c, s)
    ensures |s.workers| == c.ioThreads
  {
    hide OnePlace, ProtocolOk, Agreement, MmpBalance, MpsBalance, Wakeable;
  }

  /**
   * The server comes to rest only when it has nothing to do: unless processes it let go of hold all
   * of MMP, no process waits for admission, for the ready list, for the dispatcher or for I/O, and
   * every live process is suspended, or was let go of.
   */
  lemma RestMeansNothingToDo(c: Config, s: State)
    requires ConfigOk(c) && SharedInv(c, s) && AtRest(c, s)
    requires c.ioThreads > 0 && |s.dropped| < c.mmp
    ensures s.lfifo == [] && s.feeds == Four([], [], [], []) && s.lpl == [] && s.lpb == []
    ensures |s.net.live| == |s.lps| + |s.dropped| && s.sem.mmp + |s.dropped| == c.mmp
  {
    hide SharedInv, AtRest;
    ThreadsWait(c, s);
    WorkersWait(c, s);
    QueuesEmpty(c, s);
    NobodyActive(c, s);
  }

  /** Everybody stands where they wait for work. */
  predicate Waiting(s: State) {
    && s.conn == CIdle && s.sts == SWait && s.sem.stsIn == 0 && s.cpu == PWait && s.sem.lpl == 0 && s.sem.lpb == 0
    && (s.late == LWait || s.late == LToken)
    && forall w :: 0 <= w < |s.workers| ==> s.workers[w] == WWait
  }

  lemma QueuesEmpty(c: Config, s: State)
    requires ConfigOk(c) && SharedInv(c, s) && Waiting(s)
    ensures s.feeds == Four([], [], [], []) && s.lpl == [] && s.lpb == []
  {
    hide OfWorkers, OnePlace, ProtocolOk, ConfigOk, Pool, MmpBalance, MpsBalance;
    NobodyCounted(s.workers, LpbTaken);
    NobodyCounted(s.workers, FeedPushed(PLFIO));
    NobodyCounted(s.workers, HalfPosted);
  }

  lemma NobodyActive(c: Config, s: State)
    requires ConfigOk(c) && SharedInv(c, s) && Waiting(s) && |s.dropped| < c.mmp
    requires s.feeds == Four([], [], [], []) && s.lpl == [] && s.lpb == []
    requires (s.late == LWait && s.sem.fifo == 0) || (s.late == LToken && s.sem.mmp == 0)
    ensures s.lfifo == [] && |s.net.live| == |s.lps| + |s.dropped| && s.sem.mmp + |s.dropped| == c.mmp
  {
    hide OfWorkers, OnePlace, ProtocolOk, ConfigOk, Pool, Wakeable;
    NobodyCounted(s.workers, Carried);
  }

  // With everything else empty, a live process is on LPS.
  lemma OnlySuspended(s: State, p: Proc)
    requires OnePlace(s) && IsLive(s, p) && p !in s.dropped
    requires Waiting(s) && s.lfifo == [] && s.feeds == Four([], [], [], []) && s.lpl == [] && s.lpb == []
    ensures In(s.lps, p) == 1 && p in s.lps
  {
    hide InWorkers;
    HeldOnce(s, p);
    NobodyCarried(s.workers, p);
  }

  lemma NothingToDeliver(c: Config, s: State, fd: nat)
    requires ConfigOk(c) && AtRest(c, s) && s.conn == CIdle && Alive(s, fd)
    ensures Messages(s, Msg(fd, Suspended)) == 0
  {
    assert !Enabled(c, s, Deliver(fd));
    assert FindMsg(s.net.sending, fd) == |s.net.sending|;
    forall i | 0 <= i < |s.net.sending| ensures s.net.sending[i] != Msg(fd, Suspended) {
      assert s.net.sending[i].fd != fd;
    }
  }

  lemma NothingToAnswer(c: Config, s: State, fd: nat)
    requires ConfigOk(c) && AtRest(c, s) && s.conn == CIdle && fd in s.net.clients && s.sem.mmp > 0
    ensures s.net.clients[fd] != Answered
  {
    assert !Enabled(c, s, Answer(fd));
  }

  /**
   * Every live process that was not let go of is then suspended and its client has been told, and has
   * not answered: the server rests only because it waits for its users.
   */
  lemma RestMeansWaitingForUsers(c: Config, s: State, fd: nat)
    requires ConfigOk(c) && SharedInv(c, s) && AtRest(c, s)
    requires c.ioThreads > 0 && |s.dropped| < c.mmp && fd in s.net.live && Proc(fd, s.net.live[fd]) !in s.dropped
    ensures Proc(fd, s.net.live[fd]) in s.lps
    ensures fd in s.net.clients && s.net.clients[fd] == Prompted
  {
    RestMeansNothingToDo(c, s);
    ThreadsWait(c, s);
    WorkersWait(c, s);
    hide In, Messages, AtRest, OfWorkers, Counted;
    OnlySuspended(s, Proc(fd, s.net.live[fd]));
    TenantsAreConnected(s);
    NothingToDeliver(c, s, fd);
    NothingToAnswer(c, s, fd);
    assert Pending(s, fd) == OnLps(s, fd);
  }

  /**
   * The same for the end of any run: unless processes let go of hold all of MMP, the server stops only
   * when every other live process waits for its user. Only a negative quantum lets go of any.
   */
  lemma EveryRunRestsForUsers(c: Config, steps: seq<Step>, fd: nat)
    requires ConfigOk(c) && CanRun(c, Start(c), steps) && c.ioThreads > 0
    ensures Run(c, Start(c), steps).Some?
    ensures var s := Run(c, Start(c), steps).value;
            && (c.quantum >= 0 ==> s.dropped == [])
            && (AtRest(c, s) && |s.dropped| < c.mmp ==>
                  && s.lfifo == [] && s.feeds == Four([], [], [], []) && s.lpl == [] && s.lpb == []
                  && |s.net.live| == |s.lps| + |s.dropped|
                  && (fd in s.net.live && Proc(fd, s.net.live[fd]) !in s.dropped ==>
                        Proc(fd, s.net.live[fd]) in s.lps
                        && fd in s.net.clients && s.net.clients[fd] == Prompted))
  {
    hide Inv, SharedInv, AtRest, CanRun, Run, ConfigOk;
    EveryRunIsSafe(c, steps);
    var s := Run(c, Start(c), steps).value;
    LiveProcessHasOnePlace(c, s, Proc(0, 0));
    InvIsShared(c, s);
    if AtRest(c, s) && |s.dropped| < c.mmp {
      RestMeansNothingToDo(c, s);
      if fd in s.net.live && Proc(fd, s.net.live[fd]) !in s.dropped {
        RestMeansWaitingForUsers(c, s, fd);
      }
    }
  }
}
