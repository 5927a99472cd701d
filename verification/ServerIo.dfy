/** The request and response modules: reading a request in three parts, writing the reply, each under a timer. */
module ServerIo {
  import opened ModStates

  datatype Stage = ReadVersion | ReadHead | ReadBody | WriteReply

  /** What a timer was armed for. */
  datatype Guard = VersionTimer | RequestTimer | ReplyWriteTimer

  /** The stages during which a timer is meant to be able to fire. */
  predicate Guards(t: Guard, stage: Stage) {
    match stage
    case ReadVersion => t == VersionTimer
    case ReadHead => t == RequestTimer
    case ReadBody => t == RequestTimer
    case WriteReply => t == ReplyWriteTimer
  }

  /** An operation on the connection's socket.  `cancelled` says that the socket was cancelled meanwhile,
      `stray` that some timer did it that does not guard this operation. */
  datatype SocketOp = SocketOp(stage: Stage, cancelled: bool, stray: bool)

  /** How the engine was resumed, and whether the exit flag was set then. */
  datatype Reply = Reply(state: ModState, exit: bool)

  /** One run of a request or response module.  `timers` are the timer handlers outstanding and `called` those that have
      been called; `completed`, `interrupted` and `strayed` tell how the latest operation completed, whether its socket
      had been cancelled by then, and whether a timer not meant for it did so. */
  datatype Job = Job(
    op: Option<SocketOp>, timers: multiset<Guard>, accepted: seq<Stage>,
    exit: bool, resumed: seq<Reply>, failed: nat, dropped: nat,
    completed: SocketResult, interrupted: bool, strayed: bool,
    called: multiset<Guard>)

  const NEW_JOB := Job(None, multiset{}, [], false, [], 0, 0, Success, false, false, multiset{})

  function Arm(job: Job, t: Guard): Job {
    job.(timers := job.timers + multiset{t})
  }

  function Issue(job: Job, stage: Stage): Job {
    job.(op := Some(SocketOp(stage, false, false)))
  }

  function Resume(job: Job, state: ModState): Job {
    job.(resumed := job.resumed + [Reply(state, job.exit)])
  }

  function Quit(job: Job, state: ModState): Job {
    Resume(job.(exit := true), state)
  }

  function Drop(job: Job): Job {
    job.(dropped := job.dropped + 1)
  }

  function StartRead(): Job {
    Issue(Arm(NEW_JOB, VersionTimer), ReadVersion)
  }

  /** A response module with nothing to send fails at once, and does not set the exit flag. */
  function StartWrite(hasReply: bool): Job {
    if hasReply then Issue(Arm(NEW_JOB, ReplyWriteTimer), WriteReply) else NEW_JOB.(failed := 1)
  }

  /** The handlers of all four operations.  `hookOk` is the user's verdict on what was read, `cancelOk`
      whether cancelling the timer reports no error, `succeed` the state chosen for success. */
  function OnDone(job: Job, result: SocketResult, hookOk: bool, cancelOk: bool, succeed: ModState): Job
    requires job.op.Some?
  {
    var SocketOp(stage, cancelled, stray) := job.op.value;
    var job := job.(op := None, completed := result, interrupted := cancelled, strayed := stray);
    if result == Aborted then Quit(job, MOD_TIMEOUT)
    else if result == Failure || (stage != WriteReply && !hookOk) then
      if cancelOk then Quit(job, MOD_FAILED) else Drop(job)
    else
      var job := job.(accepted := job.accepted + [stage]);
      match stage
      case ReadVersion => if cancelOk then Issue(Arm(job, RequestTimer), ReadHead) else Drop(job)
      case ReadHead => Issue(job, ReadBody)
      case ReadBody => if cancelOk then Resume(job, succeed) else Drop(job)
      case WriteReply => if cancelOk then Resume(job, MOD_SUCCEED) else Drop(job)
  }

  /** The timeout handlers leave the run alone; they only cancel the connection's socket. */
  function OnTimer(job: Job, t: Guard): Job {
    job.(timers := job.timers - multiset{t}, called := job.called + multiset{t})
  }

  /** The data of a run, with the handlers of the request and of the response module. */
  class ServerJob {
    var op: Option<SocketOp>
    var timers: multiset<Guard>
    var accepted: seq<Stage>
    var exit: bool
    var resumed: seq<Reply>
    var failed: nat
    var dropped: nat
    var completed: SocketResult
    var interrupted: bool
    var strayed: bool
    var called: multiset<Guard>

    function Data(): Job
      reads this
    {
      Job(op, timers, accepted, exit, resumed, failed, dropped, completed, interrupted, strayed, called)
    }

    constructor ()
      ensures Data() == NEW_JOB
    {
      op, timers, accepted, exit, resumed := None, multiset{}, [], false, [];
      failed, dropped, completed, interrupted, strayed, called := 0, 0, Success, false, false, multiset{};
    }

    method AsyncWait(t: Guard)
      modifies this`timers
      ensures Data() == Arm(old(Data()), t)
    {
      timers := timers + multiset{t};
    }

    method Async(stage: Stage)
      modifies this`op
      ensures Data() == Issue(old(Data()), stage)
    {
      op := Some(SocketOp(stage, false, false));
    }

    method ResumeFsm(state: ModState)
      modifies this`resumed
      ensures Data() == Resume(old(Data()), state)
    {
      resumed := resumed + [Reply(state, exit)];
    }

    method Run()
      requires Data() == NEW_JOB
      modifies this
      ensures Data() == StartRead()
    {
      AsyncWait(VersionTimer);
      Async(ReadVersion);
    }

    /** A handler is called: the operation is over. */
    method Complete(result: SocketResult)
      requires op.Some?
      modifies this
      ensures var done := old(op).value;
              Data() == old(Data()).(op := None, completed := result, interrupted := done.cancelled,
                  strayed := done.stray)
    {
      completed, interrupted, strayed := result, op.value.cancelled, op.value.stray;
      op := None;
    }

    /** The error path that the handlers share. */
    method GiveUp(result: SocketResult, cancelOk: bool)
      modifies this
      ensures Data() == if result == Aborted then Quit(old(Data()), MOD_TIMEOUT)
                        else if cancelOk then Quit(old(Data()), MOD_FAILED) else Drop(old(Data()))
    {
      if result == Aborted {
        exit := true;
        ResumeFsm(MOD_TIMEOUT);
      } else {
        if !cancelOk {
          dropped := dropped + 1;
          return;
        }
        exit := true;
        ResumeFsm(MOD_FAILED);
      }
    }

    method OnReadVersion(result: SocketResult, hookOk: bool, cancelOk: bool)
      requires op.Some? && op.value.stage == ReadVersion
      modifies this
      ensures Data() == OnDone(old(Data()), result, hookOk, cancelOk, MOD_SUCCEED)
    {
      Complete(result);
      if result != Success || !hookOk {
        GiveUp(result, cancelOk);
      } else {
        accepted := accepted + [ReadVersion];
        if !cancelOk {
          dropped := dropped + 1;
          return;
        }
        AsyncWait(RequestTimer);
        Async(ReadHead);
      }
    }

    method OnReadHead(result: SocketResult, hookOk: bool, cancelOk: bool)
      requires op.Some? && op.value.stage == ReadHead
      modifies this
      ensures Data() == OnDone(old(Data()), result, hookOk, cancelOk, MOD_SUCCEED)
    {
      Complete(result);
      if result != Success || !hookOk {
        GiveUp(result, cancelOk);
      } else {
        accepted := accepted + [ReadHead];
        Async(ReadBody);
      }
    }

    method OnReadBody(result: SocketResult, hookOk: bool, cancelOk: bool, succeed: ModState)
      requires op.Some? && op.value.stage == ReadBody
      modifies this
      ensures Data() == OnDone(old(Data()), result, hookOk, cancelOk, succeed)
    {
      Complete(result);
      if result != Success || !hookOk {
        GiveUp(result, cancelOk);
      } else {
        accepted := accepted + [ReadBody];
        if !cancelOk {
          dropped := dropped + 1;
          return;
        }
        ResumeFsm(succeed);
      }
    }

    /** `on_read_time_out` and `on_write_time_out`; tells whether the connection's socket is cancelled. */
    method OnTimeOut(t: Guard, late: TimerResult) returns (cancels: bool)
      requires t in timers
      modifies this`timers, this`called
      ensures Data() == OnTimer(old(Data()), t) && cancels == (late == Expired)
    {
      timers, called := timers - multiset{t}, called + multiset{t};
      if late != Expired {
        return false;
      }
      return true;
    }

    /** `ResponseModule::run`. */
    method RunResponse(hasReply: bool)
      requires Data() == NEW_JOB
      modifies this
      ensures Data() == StartWrite(hasReply)
    {
      if !hasReply {
        failed := 1;
        return;
      }
      AsyncWait(ReplyWriteTimer);
      Async(WriteReply);
    }

    /** `ResponseModule::on_write_resp`. */
    method OnWriteResp(result: SocketResult, cancelOk: bool)
      requires op.Some? && op.value.stage == WriteReply
      modifies this
      ensures Data() == OnDone(old(Data()), result, true, cancelOk, MOD_SUCCEED)
    {
      Complete(result);
      if result == Success {
        accepted := accepted + [WriteReply];
        if !cancelOk {
          dropped := dropped + 1;
          return;
        }
        ResumeFsm(MOD_SUCCEED);
      } else {
        GiveUp(result, cancelOk);
      }
    }
  }

  // ---------------------------------------------------------------------------------------------
  // All runs on one connection
  // ---------------------------------------------------------------------------------------------

  /** The runs of request and response modules on one connection, oldest first. */
  datatype Connection = Connection(jobs: seq<Job>)

  datatype Action =
    | Begin(job: Job)
    | Done(i: nat, result: SocketResult, hookOk: bool, cancelOk: bool, succeed: ModState)
    | Expire(i: nat, t: Guard, late: TimerResult)

  ghost predicate Quiet(c: Connection) {
    forall k | 0 <= k < |c.jobs| :: c.jobs[k].op.None?
  }

  /** A module starts only when no operation is in flight; `ConnectionRuns.ModulesFindTheSocketIdle` shows that it
      is so. */
  ghost predicate Enabled(c: Connection, a: Action) {
    match a
    case Begin(job) => Quiet(c) && (job == StartRead() || job == StartWrite(true) || job == StartWrite(false))
    case Done(i, result, _, _, _) =>
      i < |c.jobs| && c.jobs[i].op.Some? && (result == Aborted ==> c.jobs[i].op.value.cancelled)
    case Expire(i, t, _) => i < |c.jobs| && t in c.jobs[i].timers
  }

  /** Cancelling the socket interrupts the operation of whichever run has one in flight. */
  function Hit(job: Job, own: bool, t: Guard): Job {
    if job.op.None? then job
    else
      var op := job.op.value;
      job.(op := Some(op.(cancelled := true, stray := op.stray || !own || !Guards(t, op.stage))))
  }

  ghost function Apply(c: Connection, a: Action): Connection
    requires Enabled(c, a)
  {
    match a
    case Begin(job) => Connection(c.jobs + [job])
    case Done(i, result, hookOk, cancelOk, succeed) =>
      Connection(c.jobs[i := OnDone(c.jobs[i], result, hookOk, cancelOk, succeed)])
    case Expire(i, t, late) =>
      var jobs := c.jobs[i := OnTimer(c.jobs[i], t)];
      if late != Expired then Connection(jobs)
      else Connection(seq(|jobs|, k requires 0 <= k < |jobs| => Hit(jobs[k], k == i, t)))
  }

  ghost predicate Schedule(actions: seq<Action>)
    decreases |actions|, 0
  {
    actions == [] || (
      && Schedule(actions[..|actions| - 1])
      && Enabled(Exec(actions[..|actions| - 1]), actions[|actions| - 1]))
  }

  ghost function Exec(actions: seq<Action>): Connection
    requires Schedule(actions)
    decreases |actions|, 1
  {
    if actions == [] then Connection([]) else Apply(Exec(actions[..|actions| - 1]), actions[|actions| - 1])
  }

  // ---------------------------------------------------------------------------------------------
  // Results
  // ---------------------------------------------------------------------------------------------

  function Continuations(job: Job): nat {
    (if job.op.Some? then 1 else 0) + |job.resumed| + job.failed + job.dropped
  }

  /** What has been read and accepted when an operation is in flight. */
  function Before(stage: Stage): seq<Stage> {
    match stage
    case ReadVersion => []
    case ReadHead => [ReadVersion]
    case ReadBody => [ReadVersion, ReadHead]
    case WriteReply => []
  }

  predicate IsWhole(accepted: seq<Stage>) {
    accepted == [ReadVersion, ReadHead, ReadBody] || accepted == [WriteReply]
  }

  /** A resume without exit comes after everything was accepted.  Any other comes with exit: a timeout if the last
      operation was aborted, which its socket's having been cancelled made possible, and a failure if not. */
  predicate ReplyOk(job: Job, r: Reply) {
    if r.exit then
      && r.state == (if job.completed == Aborted then MOD_TIMEOUT else MOD_FAILED)
      && (job.completed == Aborted ==> job.interrupted)
    else IsWhole(job.accepted) && (job.accepted == [WriteReply] ==> r.state == MOD_SUCCEED)
  }

  /** The timer that guards an operation in flight was armed once: its handler is outstanding or has been called. */
  predicate Guarded(job: Job, stage: Stage) {
    var armed := job.timers + job.called;
    match stage
    case ReadVersion => armed[VersionTimer] == 1 && armed[RequestTimer] == 0
    case ReadHead => armed[RequestTimer] == 1
    case ReadBody => armed[RequestTimer] == 1
    case WriteReply => armed[ReplyWriteTimer] == 1
  }

  ghost predicate JobOk(job: Job) {
    && Continuations(job) == 1
    && (job.op.Some? ==> Guarded(job, job.op.value.stage))
    && (job.op.Some? ==> job.accepted == Before(job.op.value.stage) && !job.exit)
    && (job.op.Some? && job.op.value.stray ==> job.op.value.cancelled)
    && (job.resumed != [] ==> ReplyOk(job, job.resumed[0]) && job.resumed[0].exit == job.exit)
    && (job.exit ==> job.resumed != [])
    && (job.strayed ==> job.interrupted)
  }

  ghost predicate Inv(c: Connection) {
    && (forall k | 0 <= k < |c.jobs| :: JobOk(c.jobs[k]))
    && (forall k | 0 <= k < |c.jobs| - 1 :: c.jobs[k].op.None?)
  }

  lemma DoneKeepsJob(job: Job, result: SocketResult, hookOk: bool, cancelOk: bool, succeed: ModState, job': Job)
    requires JobOk(job) && job.op.Some? && (result == Aborted ==> job.op.value.cancelled)
    requires job' == OnDone(job, result, hookOk, cancelOk, succeed)
    ensures JobOk(job')
    ensures job'.op.Some? ==> job.op.Some?
  {
    assert |job.resumed| == 0 && job.resumed == [];
  }

  lemma CalledKeepsJob(job: Job, t: Guard, job': Job)
    requires JobOk(job) && t in job.timers && job' == OnTimer(job, t)
    ensures JobOk(job') && job'.op == job.op
  {
    assert job'.timers + job'.called == job.timers + job.called;
  }

  lemma HitKeepsJob(job: Job, own: bool, t: Guard, job': Job)
    requires JobOk(job) && job' == Hit(job, own, t)
    ensures JobOk(job') && (job'.op.Some? <==> job.op.Some?)
  {
  }

  lemma TimerKeepsInv(c: Connection, a: Action, c': Connection)
    requires Inv(c) && Enabled(c, a) && a.Expire? && c' == Apply(c, a)
    ensures Inv(c')
  {
    TimerStep(c, a, c', a.i);
    forall k | 0 <= k < |c.jobs| ensures JobOk(c'.jobs[k]) && (c'.jobs[k].op.Some? <==> c.jobs[k].op.Some?) {
      TimerStep(c, a, c', k);
      var job := c.jobs[k];
      if k == a.i {
        job := OnTimer(job, a.t);
        CalledKeepsJob(c.jobs[k], a.t, job);
      }
      if a.late == Expired {
        HitKeepsJob(job, k == a.i, a.t, c'.jobs[k]);
      }
    }
  }

  lemma StepKeepsInv(c: Connection, a: Action, c': Connection)
    requires Inv(c) && Enabled(c, a) && c' == Apply(c, a)
    ensures Inv(c')
  {
    match a
    case Begin(job) =>
      assert JobOk(job);
    case Done(i, result, hookOk, cancelOk, succeed) =>
      DoneKeepsJob(c.jobs[i], result, hookOk, cancelOk, succeed, c'.jobs[i]);
    case Expire(_, _, _) =>
      TimerKeepsInv(c, a, c');
  }

  lemma {:induction false} ReachableInv(actions: seq<Action>)
    requires Schedule(actions)
    ensures Inv(Exec(actions))
    decreases |actions|
  {
    if actions != [] {
      var last := |actions| - 1;
      ReachableInv(actions[..last]);
      StepKeepsInv(Exec(actions[..last]), actions[last], Exec(actions));
    }
  }

  /** Under every race of socket operations with late timers, a request or response module resumes the engine
      at most once; without exit only after every part was accepted in order, and otherwise with the exit flag
      set and a failure or timeout. */
  lemma ResumesOnceAndInOrder(actions: seq<Action>, i: nat)
    requires Schedule(actions) && i < |Exec(actions).jobs|
    ensures var job := Exec(actions).jobs[i];
            && Continuations(job) == 1 && |job.resumed| <= 1
            && forall r | r in job.resumed :: ReplyOk(job, r)
  {
    ReachableInv(actions);
    var job := Exec(actions).jobs[i];
    assert JobOk(job);
    if job.resumed != [] {
      assert job.resumed == [job.resumed[0]];
    }
  }

  /** What follows when a part was read and accepted. */
  function NextStage(stage: Stage): Option<Stage> {
    match stage
    case ReadVersion => Some(ReadHead)
    case ReadHead => Some(ReadBody)
    case ReadBody => None
    case WriteReply => None
  }

  /** The operation succeeded, and what it read was accepted. */
  predicate Good(stage: Stage, result: SocketResult, hookOk: bool) {
    result == Success && (stage != WriteReply ==> hookOk)
  }

  /** The handler cancels its timer: always, unless it was aborted or goes on from the head to the body. */
  predicate StopsTimer(stage: Stage, result: SocketResult, hookOk: bool) {
    result != Aborted && !(stage == ReadHead && Good(stage, result, hookOk))
  }

  /** What the engine is told, if anything: a timeout for an aborted operation, a failure for any other failed or
      refused one, the chosen state for a whole request and success for a reply that was written. */
  function ReplyFor(stage: Stage, result: SocketResult, hookOk: bool, cancelOk: bool,
      succeed: ModState): Option<Reply> {
    if result == Aborted then Some(Reply(MOD_TIMEOUT, true))
    else if StopsTimer(stage, result, hookOk) && !cancelOk then None
    else if !Good(stage, result, hookOk) then Some(Reply(MOD_FAILED, true))
    else if stage == ReadBody then Some(Reply(succeed, false))
    else if stage == WriteReply then Some(Reply(MOD_SUCCEED, false))
    else None
  }

  /** Exactly what a handler tells the engine, loses, and starts next. */
  lemma WhatAHandlerDoes(actions: seq<Action>, c: Connection, a: Action, c': Connection)
    requires Schedule(actions) && c == Exec(actions) && Enabled(c, a) && a.Done? && c' == Apply(c, a)
    ensures var job, job' := c.jobs[a.i], c'.jobs[a.i]; var stage := job.op.value.stage;
            var good, stops := Good(stage, a.result, a.hookOk), StopsTimer(stage, a.result, a.hookOk);
            var goesOn := good && NextStage(stage).Some? && (stops ==> a.cancelOk);
            var reply := ReplyFor(stage, a.result, a.hookOk, a.cancelOk, a.succeed);
            && job.resumed == [] && job'.resumed == (if reply.Some? then [reply.value] else [])
            && job'.dropped == (if stops && !a.cancelOk then 1 else 0)
            && job'.op == (if goesOn then Some(SocketOp(NextStage(stage).value, false, false)) else None)
            && job'.timers == job.timers
                 + (if goesOn && stage == ReadVersion then multiset{RequestTimer} else multiset{})
            && job'.accepted == job.accepted + (if good then [stage] else [])
    ensures |c'.jobs| == |c.jobs| && forall k | 0 <= k < |c.jobs| && k != a.i :: c'.jobs[k] == c.jobs[k]
  {
    ReachableInv(actions);
    var job := c.jobs[a.i];
    assert JobOk(job) && |job.resumed| == 0;
    HandlerTable(job, a.result, a.hookOk, a.cancelOk, a.succeed);
  }

  lemma HandlerTable(job: Job, result: SocketResult, hookOk: bool, cancelOk: bool, succeed: ModState)
    requires job.op.Some? && job.resumed == [] && job.dropped == 0 && !job.exit
    ensures var job' := OnDone(job, result, hookOk, cancelOk, succeed); var stage := job.op.value.stage;
            var good, stops := Good(stage, result, hookOk), StopsTimer(stage, result, hookOk);
            var goesOn := good && NextStage(stage).Some? && (stops ==> cancelOk);
            var reply := ReplyFor(stage, result, hookOk, cancelOk, succeed);
            && job'.resumed == (if reply.Some? then [reply.value] else [])
            && job'.dropped == (if stops && !cancelOk then 1 else 0)
            && job'.op == (if goesOn then Some(SocketOp(NextStage(stage).value, false, false)) else None)
            && job'.timers == job.timers
                 + (if goesOn && stage == ReadVersion then multiset{RequestTimer} else multiset{})
            && job'.accepted == job.accepted + (if good then [stage] else [])
  {
    assert job.timers + multiset{} == job.timers;
    assert job.accepted + [] == job.accepted;
  }

  /** What a timer handler makes of a run: an operation in flight is interrupted if the handler is called without
      error; nothing is resumed, lost or closed for exit. */
  ghost predicate OnlyInterrupts(job: Job, late: TimerResult, job': Job) {
    && (job'.op.Some? <==> job.op.Some?)
    && (job.op.Some? ==> job'.op.value.stage == job.op.value.stage)
    && (job.op.Some? ==> (job'.op.value.cancelled <==> job.op.value.cancelled || late == Expired))
    && job'.resumed == job.resumed && job'.failed == job.failed && job'.dropped == job.dropped
    && job'.exit == job.exit && job'.accepted == job.accepted
  }

  lemma TimerInterrupts(job: Job, own: bool, t: Guard, late: TimerResult, job': Job)
    requires job' == if late == Expired then Hit(if own then OnTimer(job, t) else job, own, t)
                     else if own then OnTimer(job, t) else job
    ensures OnlyInterrupts(job, late, job')
    ensures job'.timers == if own then job.timers - multiset{t} else job.timers
  {
  }

  lemma TimerStep(c: Connection, a: Action, c': Connection, k: nat)
    requires Enabled(c, a) && a.Expire? && c' == Apply(c, a) && k < |c.jobs|
    ensures |c'.jobs| == |c.jobs|
    ensures var job := if k == a.i then OnTimer(c.jobs[k], a.t) else c.jobs[k];
            c'.jobs[k] == if a.late == Expired then Hit(job, k == a.i, a.t) else job
  {
  }

  /** A timer handler called without error interrupts whatever is in flight on the socket, whichever run it belongs to;
      with an error it interrupts nothing. */
  lemma WhatATimerDoes(c: Connection, a: Action, c': Connection)
    requires Enabled(c, a) && a.Expire? && c' == Apply(c, a)
    ensures |c'.jobs| == |c.jobs|
    ensures forall k | 0 <= k < |c.jobs| :: OnlyInterrupts(c.jobs[k], a.late, c'.jobs[k])
    ensures forall k | 0 <= k < |c.jobs| ::
              c'.jobs[k].timers == (if k == a.i then c.jobs[k].timers - multiset{a.t} else c.jobs[k].timers)
  {
    TimerStep(c, a, c', a.i);
    forall k | 0 <= k < |c.jobs|
      ensures OnlyInterrupts(c.jobs[k], a.late, c'.jobs[k])
      ensures c'.jobs[k].timers == (if k == a.i then c.jobs[k].timers - multiset{a.t} else c.jobs[k].timers)
    {
      TimerStep(c, a, c', k);
      TimerInterrupts(c.jobs[k], k == a.i, a.t, a.late, c'.jobs[k]);
    }
  }

  /** An operation in flight is guarded: its timer's handler is outstanding, or it has been called. */
  lemma OperationsAreGuarded(actions: seq<Action>, i: nat)
    requires Schedule(actions) && i < |Exec(actions).jobs| && Exec(actions).jobs[i].op.Some?
    ensures var job := Exec(actions).jobs[i];
            exists t :: Guards(t, job.op.value.stage) && (job.timers + job.called)[t] == 1
  {
    ReachableInv(actions);
    var job := Exec(actions).jobs[i];
    assert JobOk(job);
    var t := match job.op.value.stage case ReadVersion => VersionTimer case ReadHead => RequestTimer
                                      case ReadBody => RequestTimer case WriteReply => ReplyWriteTimer;
    assert Guards(t, job.op.value.stage);
  }

  /** Whether a timer handler is late: the operation it was armed for is no longer in flight. */
  predicate IsLate(c: Connection, i: nat, t: Guard)
    requires i < |c.jobs|
  {
    c.jobs[i].op.None? || !Guards(t, c.jobs[i].op.value.stage)
  }

  /** These timers share the connection's socket, so that a late one does interrupt a later operation: exactly
      when one is in flight. */
  lemma LateTimerHitsWhatIsInFlight(actions: seq<Action>, c: Connection, i: nat, t: Guard, c': Connection)
    requires Schedule(actions) && c == Exec(actions)
    requires Enabled(c, Expire(i, t, Expired)) && c' == Apply(c, Expire(i, t, Expired))
    ensures (exists k: nat :: NewStray(c, c', k)) <==> IsLate(c, i, t) && exists k: nat :: InFlight(c, k)
  {
    ReachableInv(actions);
    if k: nat :| InFlight(c, k) && IsLate(c, i, t) {
      assert NewStray(c, c', k);
    }
    if k: nat :| NewStray(c, c', k) {
      assert InFlight(c, k);
    }
  }

  /** An operation is in flight that no foreign timer has interrupted yet. */
  predicate InFlight(c: Connection, k: nat) {
    k < |c.jobs| && c.jobs[k].op.Some? && !c.jobs[k].op.value.stray
  }

  predicate NewStray(c: Connection, c': Connection, k: nat) {
    InFlight(c, k) && k < |c'.jobs| && c'.jobs[k].op.Some? && c'.jobs[k].op.value.stray
  }

  /** As long as no timer handler is late, no run is ever interrupted by a timer that does not guard it. */
  ghost predicate Punctual(actions: seq<Action>)
    requires Schedule(actions)
    decreases |actions|
  {
    actions == [] || (
      var before := actions[..|actions| - 1];
      && Punctual(before)
      && match actions[|actions| - 1]
         case Expire(i, t, late) => late == Expired ==> !IsLate(Exec(before), i, t)
         case _ => true)
  }

  predicate NoStray(job: Job) {
    !job.strayed && (job.op.Some? ==> !job.op.value.stray)
  }

  lemma NoStrayStep(c: Connection, a: Action, k: nat, c': Connection)
    requires Inv(c) && Enabled(c, a) && c' == Apply(c, a) && k < |c.jobs| && NoStray(c.jobs[k])
    requires a.Expire? && a.late == Expired ==> !IsLate(c, a.i, a.t)
    ensures NoStray(c'.jobs[k])
  {
  }

  lemma {:induction false} PunctualMeansNoStray(actions: seq<Action>, k: nat)
    requires Schedule(actions) && Punctual(actions) && k < |Exec(actions).jobs|
    ensures NoStray(Exec(actions).jobs[k])
    decreases |actions|
  {
    if actions != [] {
      var before, a := actions[..|actions| - 1], actions[|actions| - 1];
      ReachableInv(before);
      var c := Exec(before);
      if k < |c.jobs| {
        PunctualMeansNoStray(before, k);
        NoStrayStep(c, a, k, Exec(actions));
      }
    }
  }

  /** A request is read without incident, and the handler of its request timer has not been called yet. */
  lemma RequestIsRead() returns (actions: seq<Action>)
    ensures Schedule(actions) && |Exec(actions).jobs| == 1
    ensures Exec(actions).jobs[0].op.None? && RequestTimer in Exec(actions).jobs[0].timers
  {
    actions := [];
    actions := Then(actions, Begin(StartRead()));
    assert Exec(actions).jobs == [StartRead()];
    actions := Then(actions, Done(0, Success, true, true, MOD_SUCCEED));
    assert Exec(actions).jobs[0].op == Some(SocketOp(ReadHead, false, false));
    actions := Then(actions, Done(0, Success, true, true, MOD_SUCCEED));
    actions := Then(actions, Done(0, Success, true, true, MOD_SUCCEED));
  }

  /** A late request timer that aborts the writing of the reply. */
  lemma LateTimerCanAbortTheReply()
    ensures exists actions :: Schedule(actions) && |Exec(actions).jobs| == 2 && Exec(actions).jobs[1].strayed
                              && Exec(actions).jobs[1].resumed == [Reply(MOD_TIMEOUT, true)]
  {
    var actions := RequestIsRead();
    var first := Exec(actions).jobs[0];
    actions := Then(actions, Begin(StartWrite(true)));
    assert Exec(actions).jobs == [first, StartWrite(true)];
    actions := Then(actions, Expire(0, RequestTimer, Expired));
    assert Exec(actions).jobs[1].op == Some(SocketOp(WriteReply, true, true));
    actions := Then(actions, Done(1, Aborted, true, true, MOD_SUCCEED));
  }

  /** A cancelled socket does not make a timeout: an operation whose own timer has cancelled the socket may still
      complete with another error, and then the run resumes with a failure. */
  lemma CancelledReadCanFail() returns (actions: seq<Action>)
    ensures Schedule(actions) && |Exec(actions).jobs| == 1
    ensures Exec(actions).jobs[0].interrupted && Exec(actions).jobs[0].resumed == [Reply(MOD_FAILED, true)]
  {
    actions := [];
    actions := Then(actions, Begin(StartRead()));
    assert Exec(actions).jobs == [StartRead()];
    actions := Then(actions, Expire(0, VersionTimer, Expired));
    actions := Then(actions, Done(0, Failure, true, true, MOD_SUCCEED));
  }

  lemma Then(actions: seq<Action>, a: Action) returns (more: seq<Action>)
    requires Schedule(actions) && Enabled(Exec(actions), a)
    ensures Schedule(more) && Exec(more) == Apply(Exec(actions), a)
  {
    more := actions + [a];
    assert more[..|actions|] == actions;
  }
}
