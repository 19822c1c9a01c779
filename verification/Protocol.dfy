/** The suspend and resume protocol between the dispatcher, the list of suspended processes, the
    messages to a client and the client's answer. */
module Protocol {
  import opened Options
  import opened Scheduler
  import opened Conservation

  function Messages(s: State, m: Msg): nat {
    multiset(s.net.sending)[m]
  }

  function MustAnswer(s: State, fd: nat): nat {
    if fd in s.net.clients && (s.net.clients[fd] == Prompted || s.net.clients[fd] == Answered) then 1 else 0
  }

  function CpuTells(cpu: Cpu, fd: nat): nat {
    if cpu == PSuspended(fd) || cpu == PTelling(fd) then 1 else 0
  }

  function ConnRestores(conn: Conn, fd: nat): nat {
    if conn == CRestoring(fd) then 1 else 0
  }

  /** How many suspensions of client `fd` are on their way: about to be told, told but not
      delivered, delivered but not answered, answered but not restored. */
  function Pending(s: State, fd: nat): nat {
    CpuTells(s.cpu, fd) + Messages(s, Msg(fd, Suspended)) + MustAnswer(s, fd) + ConnRestores(s.conn, fd)
  }

  /** Whether the process of client `fd` is on the list of suspended processes. */
  function OnLps(s: State, fd: nat): nat {
    if fd in s.net.live then In(s.lps, Proc(fd, s.net.live[fd])) else 0
  }

  /** Every suspended process has exactly one suspension on its way, and nothing else has one. */
  ghost predicate Matched(s: State) {
    forall fd :: Pending(s, fd) == OnLps(s, fd)
  }

  /** A client is told to finish once, when its process is gone, and is connected until then. */
  predicate Tenant(s: State, fd: nat) {
    var told := Messages(s, Msg(fd, Finished));
    && told <= 1
    && (told == 1 ==> Alive(s, fd) && fd !in s.net.live)
    && (fd in s.net.live ==> Alive(s, fd))
  }

  ghost predicate Tenancy(s: State) {
    forall fd :: Tenant(s, fd)
  }

  /** A client whose answer is being read has answered, and every answer finds its process. */
  predicate AnswersFound(s: State) {
    && (s.conn.CReading? ==> s.conn.fd in s.net.clients && s.net.clients[s.conn.fd] == Answered)
    && s.conn != CNobody
  }

  lemma TenantsAreConnected(s: State)
    requires Tenancy(s)
    ensures LiveConnected(s)
  {
    forall fd | fd in s.net.live
      ensures Alive(s, fd)
    {
      assert Tenant(s, fd);
    }
  }

  // ----- messages in order

  function For(q: seq<Msg>, fd: nat): seq<Msg> {
    if q == [] then []
    else (if q[0].fd == fd then [q[0]] else []) + For(q[1..], fd)
  }

  /** What has reached a client, followed by what waits for it, is all it was ever sent, in order. */
  ghost predicate InOrder(s: State) {
    forall fd :: For(s.net.delivered, fd) + For(s.net.sending, fd) == For(s.net.enqueued, fd)
  }

  lemma {:induction false} ForAppends(q: seq<Msg>, m: Msg, fd: nat)
    ensures For(q + [m], fd) == For(q, fd) + (if m.fd == fd then [m] else [])
  {
    if q == [] {
      assert q + [m] == [m] && [m][1..] == [];
    } else {
      var longer, first := q + [m], if q[0].fd == fd then [q[0]] else [];
      assert longer[1..] == q[1..] + [m] && longer[0] == q[0];
      ForAppends(q[1..], m, fd);
      assert For(longer, fd) == first + (For(q[1..], fd) + if m.fd == fd then [m] else []);
    }
  }

  /** Taking out the first message for a client leaves everybody's other messages in order. */
  lemma {:induction false} ForWithout(q: seq<Msg>, to: nat, fd: nat)
    requires FindMsg(q, to) < |q|
    ensures var i := FindMsg(q, to);
            For(q, fd) == (if fd == to then [q[i]] else []) + For(Without(q, i), fd)
  {
    var i := FindMsg(q, to);
    if q[0].fd == to {
      assert Without(q, 0) == q[1..];
    } else {
      assert FindMsg(q[1..], to) == i - 1;
      ForWithout(q[1..], to, fd);
      assert Without(q, i)[1..] == Without(q[1..], i - 1);
      assert Without(q, i)[0] == q[0];
    }
  }

  lemma MessageTaken(q: seq<Msg>, i: nat, m: Msg)
    requires i < |q|
    ensures multiset(q)[m] == multiset(Without(q, i))[m] + (if q[i] == m then 1 else 0)
  {
    assert q == q[..i] + [q[i]] + q[i + 1..];
  }

  // ----- steps

  /** What a step of the other threads leaves alone. */
  predicate SameProtocol(s: State, t: State) {
    t.net == s.net && t.lps == s.lps && t.conn == s.conn && t.cpu == s.cpu
  }

  lemma OthersKeepProtocol(c: Config, s: State, step: Step, t: State)
    requires ConfigOk(c) && Enabled(c, s, step) && Apply(c, s, step) == Some(t)
    requires step.LateGoesOn? || step.StsGoesOn? || step.WorkerGoesOn?
    ensures SameProtocol(s, t)
  {
    hide ConnStep, CpuStep;
  }

  ghost predicate ProtocolOk(s: State) {
    Matched(s) && Tenancy(s) && InOrder(s) && AnswersFound(s)
  }

  /** A process in hand or in a list is live, and in no second place. */
  lemma HeldOnce(s: State, p: Proc)
    requires OnePlace(s)
    ensures Copies(s, p) + In(s.dropped, p) == if IsLive(s, p) then 1 else 0
  {
  }

  lemma EnqueueInOrder(s: State, m: Msg)
    requires InOrder(s)
    ensures InOrder(Enqueue(s, m))
  {
    var t := Enqueue(s, m);
    forall fd
      ensures For(t.net.delivered, fd) + For(t.net.sending, fd) == For(t.net.enqueued, fd)
    {
      assert For(s.net.delivered, fd) + For(s.net.sending, fd) == For(s.net.enqueued, fd);
      ForAppends(s.net.sending, m, fd);
      ForAppends(s.net.enqueued, m, fd);
    }
  }

  lemma DeliverInOrder(s: State, fd: nat)
    requires InOrder(s) && fd in s.net.clients && FindMsg(s.net.sending, fd) < |s.net.sending|
    ensures InOrder(DeliverStep(s, fd))
  {
    hide For, Without;
    var t := DeliverStep(s, fd);
    var m := s.net.sending[FindMsg(s.net.sending, fd)];
    forall to
      ensures For(t.net.delivered, to) + For(t.net.sending, to) == For(t.net.enqueued, to)
    {
      assert For(s.net.delivered, to) + For(s.net.sending, to) == For(s.net.enqueued, to);
      ForWithout(s.net.sending, fd, to);
      ForAppends(s.net.delivered, m, to);
    }
  }

  lemma OnLpsOnce(s: State, fd: nat)
    requires OnePlace(s)
    ensures OnLps(s, fd) <= 1
  {
    hide In, InRequests, InWorkers;
    if fd in s.net.live {
      HeldOnce(s, Proc(fd, s.net.live[fd]));
    }
  }

  lemma DeliverTakes(s: State, fd: nat, m: Msg)
    requires fd in s.net.clients && FindMsg(s.net.sending, fd) < |s.net.sending|
    ensures var took := s.net.sending[FindMsg(s.net.sending, fd)];
            Messages(s, m) == Messages(DeliverStep(s, fd), m) + (if took == m then 1 else 0)
  {
    MessageTaken(s.net.sending, FindMsg(s.net.sending, fd), m);
  }

  lemma DeliverMatched(s: State, fd: nat)
    requires OnePlace(s) && Matched(s) && Tenancy(s)
    requires s.conn == CIdle && Alive(s, fd) && FindMsg(s.net.sending, fd) < |s.net.sending|
    ensures Matched(DeliverStep(s, fd))
  {
    var t := DeliverStep(s, fd);
    forall to
      ensures Pending(t, to) == OnLps(t, to)
    {
      hide Messages, In, Without;
      OnLpsOnce(s, to);
      assert Pending(s, to) == OnLps(s, to) && Tenant(s, to);
      DeliverTakes(s, fd, Msg(to, Suspended));
      DeliverTakes(s, fd, Msg(to, Finished));
    }
  }

  lemma DeliverTenancy(s: State, fd: nat)
    requires Tenancy(s)
    requires s.conn == CIdle && Alive(s, fd) && FindMsg(s.net.sending, fd) < |s.net.sending|
    ensures Tenancy(DeliverStep(s, fd))
  {
    hide Messages, Without;
    forall to
      ensures Tenant(DeliverStep(s, fd), to)
    {
      assert Tenant(s, to);
      DeliverTakes(s, fd, Msg(to, Finished));
    }
  }

  // ----- the dispatcher's messages

  lemma Enqueued(s: State, x: Msg, m: Msg)
    ensures Messages(Enqueue(s, x), m) == Messages(s, m) + (if x == m then 1 else 0)
  {
  }

  /** What a step of the dispatcher queues, if anything. */
  function Queues(s: State, step: Step): Option<Msg> {
    match step
    case CpuPrints => if s.cpu.PRun? then Some(Msg(s.cpu.p.fd, Note)) else None
    case CpuFinishes => if s.cpu.PRun? then Some(Msg(s.cpu.p.fd, Finished)) else None
    case CpuGoesOn =>
      (match s.cpu
       case PCounted(p, free) => if |s.lpb| < free then None else Some(Msg(p.fd, Note))
       case PTelling(fd) => Some(Msg(fd, Suspended))
       case _ => None)
    case _ => None
  }

  predicate IsCpu(step: Step) {
    step.CpuPrints? || step.CpuAsks? || step.CpuBlocks? || step.CpuEndsQuantum? || step.CpuSuspends?
    || step.CpuFinishes? || step.CpuLoses? || step.CpuGoesOn?
  }

  lemma CpuQueues(c: Config, s: State, step: Step, t: State)
    requires ConfigOk(c) && IsCpu(step) && Enabled(c, s, step) && Apply(c, s, step) == Some(t)
    ensures t.net == (match Queues(s, step)
                      case None => s.net
                      case Some(m) => Enqueue(s, m).net).(live := t.net.live)
    ensures t.conn == s.conn
    ensures t.net.live == if step.CpuFinishes? then s.net.live - {s.cpu.p.fd} else s.net.live
    ensures t.lps == if step.CpuSuspends? then s.lps + [s.cpu.p] else s.lps
    ensures forall fd :: CpuTells(t.cpu, fd) + (if Queues(s, step) == Some(Msg(fd, Suspended)) then 1 else 0)
                      == CpuTells(s.cpu, fd) + (if step.CpuSuspends? && s.cpu.p.fd == fd then 1 else 0)
  {
    hide ConnStep, LateStep, StsStep, WorkerStep;
  }

  lemma CpuMessages(c: Config, s: State, step: Step, t: State, m: Msg)
    requires ConfigOk(c) && IsCpu(step) && Enabled(c, s, step) && Apply(c, s, step) == Some(t)
    ensures Messages(t, m) == Messages(s, m) + (if Queues(s, step) == Some(m) then 1 else 0)
  {
    hide Apply, CpuTells;
    CpuQueues(c, s, step, t);
    if Queues(s, step).Some? {
      Enqueued(s, Queues(s, step).value, m);
    }
  }

  lemma CpuInOrder(c: Config, s: State, step: Step, t: State)
    requires ConfigOk(c) && IsCpu(step) && Enabled(c, s, step) && Apply(c, s, step) == Some(t)
    requires InOrder(s)
    ensures InOrder(t)
  {
    hide Apply, For;
    CpuQueues(c, s, step, t);
    if Queues(s, step).Some? {
      EnqueueInOrder(s, Queues(s, step).value);
    }
  }

  lemma CpuMatched(c: Config, s: State, step: Step, t: State)
    requires ConfigOk(c) && IsCpu(step) && Enabled(c, s, step) && Apply(c, s, step) == Some(t)
    requires OnePlace(s) && Matched(s)
    ensures Matched(t)
  {
    hide Apply, Messages, In, InRequests, InWorkers, CpuTells;
    CpuQueues(c, s, step, t);
    forall fd
      ensures Pending(t, fd) == OnLps(t, fd)
    {
      assert Pending(s, fd) == OnLps(s, fd);
      CpuMessages(c, s, step, t, Msg(fd, Suspended));
      if s.cpu.PRun? {
        HeldOnce(s, s.cpu.p);
        Pushed(s.lps, s.cpu.p, if fd in s.net.live then Proc(fd, s.net.live[fd]) else s.cpu.p);
      }
    }
  }

  lemma CpuTenancy(c: Config, s: State, step: Step, t: State)
    requires ConfigOk(c) && IsCpu(step) && Enabled(c, s, step) && Apply(c, s, step) == Some(t)
    requires OnePlace(s) && Tenancy(s)
    ensures Tenancy(t)
  {
    hide Apply, Messages, In, InRequests, InWorkers, CpuTells;
    CpuQueues(c, s, step, t);
    forall fd
      ensures Tenant(t, fd)
    {
      assert Tenant(s, fd);
      CpuMessages(c, s, step, t, Msg(fd, Finished));
      if s.cpu.PRun? {
        HeldOnce(s, s.cpu.p);
      }
    }
  }

  // ----- connecting, answering, restoring

  lemma ConnectKeepsProtocol(s: State, fd: nat)
    requires OnePlace(s) && ProtocolOk(s) && s.conn == CIdle && !Alive(s, fd)
    ensures ProtocolOk(ConnectStep(s, fd))
  {
    hide Messages, In, InRequests, InWorkers, CpuTells, For;
    var t := ConnectStep(s, fd);
    forall to
      ensures Tenant(t, to) && Pending(t, to) == OnLps(t, to)
    {
      assert Tenant(s, to) && Pending(s, to) == OnLps(s, to);
      assert Tenant(s, fd);
      HeldOnce(s, Proc(fd, s.net.nextPid));
      SameMessages(s, t, Msg(to, Finished));
      SameMessages(s, t, Msg(to, Suspended));
    }
  }

  lemma SameMessages(s: State, t: State, m: Msg)
    requires s.net.sending == t.net.sending
    ensures Messages(s, m) == Messages(t, m)
  {
  }

  /** Reading an answer, and finding its process: whenever an 'R' is consumed, the process of that
      very client is on the list of suspended processes. */
  lemma AnswerFindsItsProcess(s: State)
    requires OnePlace(s) && Matched(s) && s.conn.CRestoring?
    ensures var fd := s.conn.fd; var i := FindProc(s.lps, fd);
            i < |s.lps| && fd in s.net.live && s.lps[i] == Proc(fd, s.net.live[fd])
            && Proc(fd, s.net.live[fd]) !in Without(s.lps, i)
  {
    var fd := s.conn.fd;
    assert Pending(s, fd) == OnLps(s, fd);
    var p := Proc(fd, s.net.live[fd]);
    assert p in multiset(s.lps);
    var i := FindProc(s.lps, fd);
    HeldOnce(s, s.lps[i]);
    assert s.lps[i] in multiset(s.lps);
    Taken(s.lps, i, p);
    HeldOnce(s, p);
  }

  lemma ConnKeepsProtocol(s: State, t: State)
    requires OnePlace(s) && ProtocolOk(s) && s.conn != CIdle && ConnStep(s) == Some(t)
    ensures ProtocolOk(t)
  {
    hide Messages, InRequests, InWorkers, CpuTells, For, In, Without;
    if s.conn.CRestoring? {
      AnswerFindsItsProcess(s);
    }
    forall fd
      ensures Tenant(t, fd) && Pending(t, fd) == OnLps(t, fd)
    {
      assert Tenant(s, fd) && Pending(s, fd) == OnLps(s, fd);
      SameMessages(s, t, Msg(fd, Finished));
      SameMessages(s, t, Msg(fd, Suspended));
      if s.conn.CRestoring? && fd in s.net.live {
        Taken(s.lps, FindProc(s.lps, s.conn.fd), Proc(fd, s.net.live[fd]));
      }
    }
  }

  /** Every step keeps the protocol. */
  lemma StepKeepsProtocol(c: Config, s: State, step: Step, t: State)
    requires ConfigOk(c) && Enabled(c, s, step) && Apply(c, s, step) == Some(t)
    requires OnePlace(s) && ProtocolOk(s)
    ensures ProtocolOk(t)
  {
    hide ConnStep, LateStep, StsStep, CpuStep, WorkerStep, For, Matched, Tenancy, InOrder;
    match step
    case Connect(fd) => ConnectKeepsProtocol(s, fd);
    case Deliver(fd) =>
      DeliverMatched(s, fd);
      DeliverTenancy(s, fd);
      DeliverInOrder(s, fd);
    case ConnGoesOn => ConnKeepsProtocol(s, t);
    case Answer(fd) => ClientSideKeepsProtocol(s, t);
    case ClientResumes(fd) => ClientSideKeepsProtocol(s, t);
    case LateGoesOn => OthersKeepProtocol(c, s, step, t); SameKeepsProtocol(s, t);
    case StsGoesOn => OthersKeepProtocol(c, s, step, t); SameKeepsProtocol(s, t);
    case WorkerGoesOn(_) => OthersKeepProtocol(c, s, step, t); SameKeepsProtocol(s, t);
    case _ =>
      CpuMatched(c, s, step, t);
      CpuTenancy(c, s, step, t);
      CpuInOrder(c, s, step, t);
      CpuQueues(c, s, step, t);
  }

  lemma SameKeepsProtocol(s: State, t: State)
    requires ProtocolOk(s) && SameProtocol(s, t)
    ensures ProtocolOk(t)
  {
    hide For, In;
    forall fd
      ensures Tenant(t, fd) && Pending(t, fd) == OnLps(t, fd)
    {
      assert Tenant(s, fd) && Pending(s, fd) == OnLps(s, fd);
    }
  }

  // the user answers, or LTSconex takes up an answer
  lemma ClientSideKeepsProtocol(s: State, t: State)
    requires ProtocolOk(s)
    requires (exists fd :: fd in s.net.clients && s.net.clients[fd] == Prompted
                           && t == s.(net := s.net.(clients := s.net.clients[fd := Answered])))
          || (exists fd :: fd in s.net.clients && s.net.clients[fd] == Answered && s.sem.mmp > 0 && s.conn == CIdle
                           && t == s.(sem := s.sem.(mmp := s.sem.mmp - 1), conn := CReading(fd)))
    ensures ProtocolOk(t)
  {
    hide For, In;
    forall fd
      ensures Tenant(t, fd) && Pending(t, fd) == OnLps(t, fd)
    {
      assert Tenant(s, fd) && Pending(s, fd) == OnLps(s, fd);
    }
  }
}
