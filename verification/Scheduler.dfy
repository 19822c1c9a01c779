/** The threads of PP as one step system. A step is one semaphore, queue, list or message operation
    of one thread. Mutexes are not steps, but sections that cover several of these operations
    exclude each other as in the code: a queue is not touched while another thread stands between
    its push there and the posts that follow, and LPB not while the dispatcher is between reading
    the number of free threads and posting its request. */
module Scheduler {
  import opened Options

  datatype Proc = Proc(fd: nat, pid: nat)

  datatype Request = Request(proc: Proc, blocking: bool)

  // 'N', 'S' and 'T'
  datatype Kind = Note | Suspended | Finished

  datatype Msg = Msg(fd: nat, kind: Kind)

  datatype Feed = PLPN | PLPR | PLFQ | PLFIO

  datatype Four<T> = Four(pn: T, pr: T, fq: T, fio: T) {
    function Get(f: Feed): T {
      match f case PLPN => pn case PLPR => pr case PLFQ => fq case PLFIO => fio
    }

    function Set(f: Feed, v: T): Four<T> {
      match f
      case PLPN => this.(pn := v)
      case PLPR => this.(pr := v)
      case PLFQ => this.(fq := v)
      case PLFIO => this.(fio := v)
    }
  }

  // ----- where each thread stands; a process in brackets is in its hand

  /** LTSconex. */
  datatype Conn =
    | CIdle
    | CAdmitted(p: Proc)      // took MPS_sem
    | CDelaying(p: Proc)      // no MMP_sem: about to push LFIFO
    | CDelayed                // about to post LFIFO_empty
    | CNew(p: Proc)           // took MMP_sem: about to push LPN
    | CNewPushed              // about to post LPN_empty
    | CNewPosted              // about to post STS_in_empty
    | CReading(fd: nat)       // took MMP_sem for a client's answer: about to read it
    | CRestoring(fd: nat)     // about to search LPS
    | CResumed(p: Proc)       // about to push LPR
    | CResPushed              // about to post LPR_empty
    | CResPosted              // about to post STS_in_empty
    | CNobody                 // restoreSuspended found nothing: about to post MMP_sem

  /** LTSnew. */
  datatype Late =
    | LWait
    | LToken                  // took LFIFO_empty
    | LBoth                   // took MMP_sem too
    | LHand(p: Proc)          // about to push LPN
    | LPushed                 // about to post LPN_empty
    | LPosted                 // about to post STS_in_empty

  /** STS under FIFO or RR; `i` counts the feeds in configured order. */
  datatype Sts =
    | SWait
    | SBorrowed               // took STS_in_empty, about to put it back
    | STry(i: nat)            // about to try feed i
    | SMatch(i: nat)          // took a token of feed i, about to try STS_in_empty
    | SPop(i: nat)            // about to pop feed i
    | SHand(p: Proc, i: nat)  // about to push LPL
    | SPushed(i: nat)         // about to post LPL_empty

  /** PROCER. */
  datatype Cpu =
    | PWait
    | PToken                  // took LPL_empty
    | PRun(p: Proc)
    | PAsking(p: Proc)        // holds LPB_mutex for a non-blocking request
    | PCounted(p: Proc, free: nat)  // read the number of free I/O threads
    | PAsked(p: Proc)         // pushed the request: about to post LPB_empty
    | PBlocking(p: Proc)      // holds LPB_mutex for a blocking request
    | PBlocked                // pushed it: about to post LPB_empty
    | PQuantum                // pushed LFQ: about to post LFQ_empty
    | PQuantumPosted          // about to post STS_in_empty
    | PSuspended(fd: nat)     // put the process on LPS: about to post MMP_sem
    | PTelling(fd: nat)       // about to queue 'S'
    | PDone                   // queued 'T' and freed the process: about to post MMP_sem
    | PDonePosted             // about to post MPS_sem

  /** One I/O thread. */
  datatype Worker =
    | WWait
    | WToken                  // took LPB_empty
    | WCleared                // took io_threads: about to pop LPB
    | WBusy(r: Request)
    | WPushed                 // pushed LFIO: about to post LFIO_empty
    | WPosted                 // about to post STS_in_empty
    | WReleasing              // about to post io_threads

  /** A client, as far as its messages go. */
  datatype Client =
    | Listening
    | Prompted                // was told it is suspended
    | Answered                // its 'R' is in the socket
    | Gone                    // was told it finished, and closed

  datatype Config = Config(order: seq<Feed>, mps: nat, mmp: nat, ioThreads: nat, quantum: int)

  predicate ConfigOk(c: Config) {
    && |c.order| == 4
    && forall f: Feed :: f in c.order
  }

  /** The semaphores; `fifo`, `feed`, `lpl` and `lpb` are the ones named after their queue. */
  datatype Semaphores = Semaphores(
    mps: nat, mmp: nat, fifo: nat, feed: Four<nat>, lpl: nat, lpb: nat, stsIn: nat, ioFree: nat)

  /** Clients and messages. `live` is the process of each client that has one; `enqueued` and
      `delivered` are all messages so far. */
  datatype Net = Net(
    sending: seq<Msg>, clients: map<nat, Client>, nextPid: nat, live: map<nat, nat>,
    enqueued: seq<Msg>, delivered: seq<Msg>)

  /** `dropped` is a record only: the processes the dispatcher has let go of without a successor. */
  datatype State = State(
    lfifo: seq<Proc>, feeds: Four<seq<Proc>>, lpl: seq<Proc>, lps: seq<Proc>, lpb: seq<Request>,
    sem: Semaphores, conn: Conn, late: Late, sts: Sts, cpu: Cpu, workers: seq<Worker>, net: Net, dropped: seq<Proc>)

  /** The state main sets up (main.c:32-36, 134-144). */
  function Start(c: Config): State {
    State([], Four([], [], [], []), [], [], [],
          Semaphores(c.mps, c.mmp, 0, Four(0, 0, 0, 0), 0, 0, 0, c.ioThreads),
          CIdle, LWait, SWait, PWait, seq(c.ioThreads, _ => WWait),
          Net([], map[], 11, map[], [], []), [])
  }

  datatype Step =
    | Connect(fd: nat)        // a client connects and sends its script
    | Answer(fd: nat)         // LTSconex turns to a client that answered
    | Deliver(fd: nat)        // LTSconex turns to a client that can be written to
    | ConnGoesOn
    | LateGoesOn
    | StsGoesOn
    | CpuPrints
    | CpuAsks
    | CpuBlocks
    | CpuEndsQuantum
    | CpuSuspends
    | CpuFinishes
    | CpuLoses                // no test of the dispatch loop applies
    | CpuGoesOn
    | WorkerGoesOn(w: nat)
    | ClientResumes(fd: nat)  // the user presses enter

  // ----- searches over lists

  /** Index of the first process of client `fd`, or the length (`restoreSuspended`). */
  function FindProc(s: seq<Proc>, fd: nat): (i: nat)
    ensures i <= |s|
    ensures i < |s| ==> s[i].fd == fd
    ensures forall j :: 0 <= j < i ==> s[j].fd != fd
  {
    if s == [] || s[0].fd == fd then 0 else 1 + FindProc(s[1..], fd)
  }

  /** Index of the first message for client `fd`, or the length (`list_fd_msg_get`). */
  function FindMsg(s: seq<Msg>, fd: nat): (i: nat)
    ensures i <= |s|
    ensures i < |s| ==> s[i].fd == fd
    ensures forall j :: 0 <= j < i ==> s[j].fd != fd
  {
    if s == [] || s[0].fd == fd then 0 else 1 + FindMsg(s[1..], fd)
  }

  function Without<T>(s: seq<T>, i: nat): seq<T>
    requires i < |s|
  {
    s[..i] + s[i + 1..]
  }

  predicate Alive(s: State, fd: nat) {
    fd in s.net.clients && s.net.clients[fd] != Gone
  }

  predicate HoldsLpb(cpu: Cpu) {
    cpu.PAsking? || cpu.PCounted? || cpu.PAsked? || cpu.PBlocking? || cpu.PBlocked?
  }

  /** Some thread holds the mutex of feed `f`: it has pushed there and has not done both posts. */
  predicate FeedHeld(s: State, f: Feed) {
    match f
    case PLPN => s.conn == CNewPushed || s.conn == CNewPosted || s.late == LPushed || s.late == LPosted
    case PLPR => s.conn == CResPushed || s.conn == CResPosted
    case PLFQ => s.cpu == PQuantum || s.cpu == PQuantumPosted
    case PLFIO => exists w :: 0 <= w < |s.workers| && (s.workers[w] == WPushed || s.workers[w] == WPosted)
  }

  // ----- steps: when they can happen and what they do

  /** A running process executes statements only under a positive quantum, ends its quantum only if
      that is not negative, and is lost only if it is (`Outcomes.LostExactlyWhen`). */
  predicate Enabled(c: Config, s: State, step: Step)
    requires ConfigOk(c)
  {
    match step
    case Connect(fd) => s.conn == CIdle && !Alive(s, fd)
    case Answer(fd) => s.conn == CIdle && fd in s.net.clients && s.net.clients[fd] == Answered && s.sem.mmp > 0
    case Deliver(fd) => s.conn == CIdle && Alive(s, fd) && FindMsg(s.net.sending, fd) < |s.net.sending|
    case ConnGoesOn =>
      && s.conn != CIdle
      && (s.conn.CNew? ==> !FeedHeld(s, PLPN))
      && (s.conn.CRestoring? ==> !s.cpu.PSuspended?)
    case LateGoesOn =>
      && (s.late == LWait ==> s.sem.fifo > 0)
      && (s.late == LToken ==> s.sem.mmp > 0)
      && (s.late == LBoth ==> s.conn != CDelayed)
      && (s.late.LHand? ==> !FeedHeld(s, PLPN))
    case StsGoesOn =>
      && (s.sts == SWait ==> s.sem.stsIn > 0)
      && (s.sts.SPop? && s.sts.i < 4 ==> !FeedHeld(s, c.order[s.sts.i]))
    case CpuPrints => s.cpu.PRun? && c.quantum > 0
    case CpuAsks => s.cpu.PRun? && c.quantum > 0
    case CpuBlocks => s.cpu.PRun? && c.quantum > 0
    case CpuEndsQuantum => s.cpu.PRun? && c.quantum >= 0
    case CpuSuspends => s.cpu.PRun?
    case CpuFinishes => s.cpu.PRun?
    case CpuLoses => s.cpu.PRun? && c.quantum < 0
    case CpuGoesOn => !s.cpu.PRun? && (s.cpu == PWait ==> s.sem.lpl > 0) && (s.cpu == PToken ==> !s.sts.SPushed?)
    case WorkerGoesOn(w) =>
      && w < |s.workers|
      && (s.workers[w] == WWait ==> s.sem.lpb > 0)
      && (s.workers[w] == WToken ==> s.sem.ioFree > 0)
      && (s.workers[w] == WCleared ==> !HoldsLpb(s.cpu))
      && (s.workers[w].WBusy? && s.workers[w].r.blocking ==> !FeedHeld(s, PLFIO))
    case ClientResumes(fd) => fd in s.net.clients && s.net.clients[fd] == Prompted
  }

  function Enqueue(s: State, m: Msg): State {
    s.(net := s.net.(sending := s.net.sending + [m], enqueued := s.net.enqueued + [m]))
  }

  // LTS.c:79-191
  function ConnectStep(s: State, fd: nat): State {
    if s.sem.mps == 0 then s  // refused: the client is told and closed
    else
      var p := Proc(fd, s.net.nextPid);
      s.(sem := s.sem.(mps := s.sem.mps - 1), conn := CAdmitted(p),
         net := s.net.(nextPid := s.net.nextPid + 1, clients := s.net.clients[fd := Listening],
                       live := s.net.live[fd := p.pid]))
  }

  // LTS.c:241-264
  function DeliverStep(s: State, fd: nat): State
    requires fd in s.net.clients && FindMsg(s.net.sending, fd) < |s.net.sending|
  {
    var i := FindMsg(s.net.sending, fd);
    var m := s.net.sending[i];
    s.(net := s.net.(sending := Without(s.net.sending, i), delivered := s.net.delivered + [m], clients := match m.kind
                  case Note => s.net.clients
                  case Suspended => s.net.clients[fd := Prompted]
                  case Finished => s.net.clients[fd := Gone]))
  }

  // LTS.c:139-237
  function ConnStep(s: State): Option<State>
    requires s.conn != CIdle
  {
    match s.conn
    case CAdmitted(p) =>
      Some(if s.sem.mmp == 0 then s.(conn := CDelaying(p))
          else s.(sem := s.sem.(mmp := s.sem.mmp - 1), conn := CNew(p)))
    case CDelaying(p) => Some(s.(lfifo := s.lfifo + [p], conn := CDelayed))
    case CDelayed => Some(s.(sem := s.sem.(fifo := s.sem.fifo + 1), conn := CIdle))
    case CNew(p) => Some(s.(feeds := s.feeds.Set(PLPN, s.feeds.pn + [p]), conn := CNewPushed))
    case CNewPushed => Some(s.(sem := s.sem.(feed := s.sem.feed.Set(PLPN, s.sem.feed.pn + 1)), conn := CNewPosted))
    case CNewPosted => Some(s.(sem := s.sem.(stsIn := s.sem.stsIn + 1), conn := CIdle))
    case CReading(fd) => Some(s.(net := s.net.(clients := s.net.clients[fd := Listening]), conn := CRestoring(fd)))
    case CRestoring(fd) =>
      if s.lps == [] then None  // the search reads an uninitialised pointer
      else
        var i := FindProc(s.lps, fd);
        Some(if i < |s.lps| then s.(lps := Without(s.lps, i), conn := CResumed(s.lps[i])) else s.(conn := CNobody))
    case CResumed(p) => Some(s.(feeds := s.feeds.Set(PLPR, s.feeds.pr + [p]), conn := CResPushed))
    case CResPushed => Some(s.(sem := s.sem.(feed := s.sem.feed.Set(PLPR, s.sem.feed.pr + 1)), conn := CResPosted))
    case CResPosted => Some(s.(sem := s.sem.(stsIn := s.sem.stsIn + 1), conn := CIdle))
    case CNobody => Some(s.(sem := s.sem.(mmp := s.sem.mmp + 1), conn := CIdle))
  }

  // LTS.c:317-327
  function LateStep(s: State): Option<State>
    requires (s.late == LWait ==> s.sem.fifo > 0) && (s.late == LToken ==> s.sem.mmp > 0)
  {
    match s.late
    case LWait => Some(s.(sem := s.sem.(fifo := s.sem.fifo - 1), late := LToken))
    case LToken => Some(s.(sem := s.sem.(mmp := s.sem.mmp - 1), late := LBoth))
    case LBoth => if s.lfifo == [] then None else Some(s.(lfifo := s.lfifo[1..], late := LHand(s.lfifo[0])))
    case LHand(p) => Some(s.(feeds := s.feeds.Set(PLPN, s.feeds.pn + [p]), late := LPushed))
    case LPushed => Some(s.(sem := s.sem.(feed := s.sem.feed.Set(PLPN, s.sem.feed.pn + 1)), late := LPosted))
    case LPosted => Some(s.(sem := s.sem.(stsIn := s.sem.stsIn + 1), late := LWait))
  }

  // STS.c:12-13, 311-390
  function StsStep(c: Config, s: State): Option<State>
    requires ConfigOk(c) && (s.sts == SWait ==> s.sem.stsIn > 0)
  {
    match s.sts
    case SWait => Some(s.(sem := s.sem.(stsIn := s.sem.stsIn - 1), sts := SBorrowed))
    case SBorrowed => Some(s.(sem := s.sem.(stsIn := s.sem.stsIn + 1), sts := STry(0)))
    case STry(i) =>
      if i >= 4 then Some(s.(sts := SWait))
      else
        var f := c.order[i];
        if s.sem.feed.Get(f) == 0 then Some(s.(sts := STry(i + 1)))
        else Some(s.(sem := s.sem.(feed := s.sem.feed.Set(f, s.sem.feed.Get(f) - 1)), sts := SMatch(i)))
    case SMatch(i) => Some(s.(sem := s.sem.(stsIn := if s.sem.stsIn > 0 then s.sem.stsIn - 1 else 0), sts := SPop(i)))
    case SPop(i) =>
      if i >= 4 || s.feeds.Get(c.order[i]) == [] then None
      else
        var q := s.feeds.Get(c.order[i]);
        Some(s.(feeds := s.feeds.Set(c.order[i], q[1..]), sts := SHand(q[0], i)))
    case SHand(p, i) => Some(s.(lpl := s.lpl + [p], sts := SPushed(i)))
    case SPushed(i) => Some(s.(sem := s.sem.(lpl := s.sem.lpl + 1), sts := STry(i)))
  }

  // PROCER.c:14-96 and the requests of procer_defs.c:280-325
  function CpuStep(s: State): Option<State>
    requires !s.cpu.PRun? && (s.cpu == PWait ==> s.sem.lpl > 0)
  {
    match s.cpu
    case PWait => Some(s.(sem := s.sem.(lpl := s.sem.lpl - 1), cpu := PToken))
    case PToken => if s.lpl == [] then None else Some(s.(lpl := s.lpl[1..], cpu := PRun(s.lpl[0])))
    case PAsking(p) => Some(s.(cpu := PCounted(p, s.sem.ioFree)))
    case PCounted(p, free) =>
      if |s.lpb| < free then Some(s.(lpb := s.lpb + [Request(p, false)], cpu := PAsked(p)))
      else Some(Enqueue(s, Msg(p.fd, Note)).(cpu := PRun(p)))
    case PAsked(p) => Some(s.(sem := s.sem.(lpb := s.sem.lpb + 1), cpu := PRun(p)))
    case PBlocking(p) => Some(s.(lpb := s.lpb + [Request(p, true)], cpu := PBlocked))
    case PBlocked => Some(s.(sem := s.sem.(lpb := s.sem.lpb + 1), cpu := PWait))
    case PQuantum => Some(s.(sem := s.sem.(feed := s.sem.feed.Set(PLFQ, s.sem.feed.fq + 1)), cpu := PQuantumPosted))
    case PQuantumPosted => Some(s.(sem := s.sem.(stsIn := s.sem.stsIn + 1), cpu := PWait))
    case PSuspended(fd) => Some(s.(sem := s.sem.(mmp := s.sem.mmp + 1), cpu := PTelling(fd)))
    case PTelling(fd) => Some(Enqueue(s, Msg(fd, Suspended)).(cpu := PWait))
    case PDone => Some(s.(sem := s.sem.(mmp := s.sem.mmp + 1), cpu := PDonePosted))
    case PDonePosted => Some(s.(sem := s.sem.(mps := s.sem.mps + 1), cpu := PWait))
  }

  // io.c:27-61
  function WorkerStep(s: State, w: nat): Option<State>
    requires w < |s.workers|
    requires s.workers[w] == WWait ==> s.sem.lpb > 0
    requires s.workers[w] == WToken ==> s.sem.ioFree > 0
  {
    match s.workers[w]
    case WWait => Some(s.(sem := s.sem.(lpb := s.sem.lpb - 1), workers := s.workers[w := WToken]))
    case WToken => Some(s.(sem := s.sem.(ioFree := s.sem.ioFree - 1), workers := s.workers[w := WCleared]))
    case WCleared =>
      if s.lpb == [] then None else Some(s.(lpb := s.lpb[1..], workers := s.workers[w := WBusy(s.lpb[0])]))
    case WBusy(r) =>
      if r.blocking then
        Some(s.(feeds := s.feeds.Set(PLFIO, s.feeds.fio + [r.proc]), workers := s.workers[w := WPushed]))
      else Some(s.(workers := s.workers[w := WReleasing]))
    case WPushed => Some(s.(sem := s.sem.(feed := s.sem.feed.Set(PLFIO, s.sem.feed.fio + 1)),
        workers := s.workers[w := WPosted]))
    case WPosted => Some(s.(sem := s.sem.(stsIn := s.sem.stsIn + 1), workers := s.workers[w := WReleasing]))
    case WReleasing => Some(s.(sem := s.sem.(ioFree := s.sem.ioFree + 1), workers := s.workers[w := WWait]))
  }

  /** `None` is a crash: a pop or a search on an empty list. */
  function Apply(c: Config, s: State, step: Step): Option<State>
    requires ConfigOk(c) && Enabled(c, s, step)
  {
    match step
    case Connect(fd) => Some(ConnectStep(s, fd))
    case Answer(fd) => Some(s.(sem := s.sem.(mmp := s.sem.mmp - 1), conn := CReading(fd)))
    case Deliver(fd) => Some(DeliverStep(s, fd))
    case ConnGoesOn => ConnStep(s)
    case LateGoesOn => LateStep(s)
    case StsGoesOn => StsStep(c, s)
    case CpuPrints => Some(Enqueue(s, Msg(s.cpu.p.fd, Note)))
    case CpuAsks => Some(s.(cpu := PAsking(s.cpu.p)))
    case CpuBlocks => Some(s.(cpu := PBlocking(s.cpu.p)))
    case CpuEndsQuantum => Some(s.(feeds := s.feeds.Set(PLFQ, s.feeds.fq + [s.cpu.p]), cpu := PQuantum))
    case CpuSuspends => Some(s.(lps := s.lps + [s.cpu.p], cpu := PSuspended(s.cpu.p.fd)))
    case CpuFinishes =>
      var told := Enqueue(s, Msg(s.cpu.p.fd, Finished));
      Some(told.(net := told.net.(live := told.net.live - {s.cpu.p.fd}), cpu := PDone))
    case CpuLoses => Some(s.(cpu := PWait, dropped := s.dropped + [s.cpu.p]))
    case CpuGoesOn => CpuStep(s)
    case WorkerGoesOn(w) => WorkerStep(s, w)
    case ClientResumes(fd) => Some(s.(net := s.net.(clients := s.net.clients[fd := Answered])))
  }

  /** A run: the state after `steps`, each enabled where it is taken; `None` after a crash. */
  predicate CanRun(c: Config, s: State, steps: seq<Step>)
    requires ConfigOk(c)
    decreases |steps|
  {
    steps == [] ||
    (Enabled(c, s, steps[0]) &&
     (Apply(c, s, steps[0]).Some? ==> CanRun(c, Apply(c, s, steps[0]).value, steps[1..])))
  }

  function Run(c: Config, s: State, steps: seq<Step>): Option<State>
    requires ConfigOk(c) && CanRun(c, s, steps)
    decreases |steps|
  {
    if steps == [] then Some(s)
    else
      var t := Apply(c, s, steps[0]);
      if t.None? then None else Run(c, t.value, steps[1..])
  }
}
