/** One run of a backend module: connect, write, read head, read body, with two timers that may fire late. */
module TcpModule {
  import opened ModStates
  import opened ClientPool

  datatype SocketEvent = EventNone | EventOpened | EventClosed

  datatype OpKind = Connect | Write | Head | Body

  /** An outstanding socket operation.  `cancelled` says that its socket was cancelled or closed since. */
  datatype Op = Op(kind: OpKind, client: ClientId, cancelled: bool)

  datatype TimerKind = ConnectTimer | ReplyTimer

  /** The data of one module run.  Besides the fields of the source it records the operation in flight,
      how many timer handlers have still to be called, and the ways in which the run was continued:
      resumes, synchronous failures, and continuations lost when cancelling the timer failed.
      `window` is the moment between recollecting the client and forgetting it, with the lock held;
      `fired` says that a timer of this run has cancelled its socket; `strays` counts handlers turned
      away by the "already called" guards, and the last two fields the timer handlers that were called. */
  datatype Run = Run(
    client: Option<ClientId>, event: SocketEvent, op: Option<Op>,
    connectTimers: nat, replyTimers: nat,
    resumed: seq<ModState>, failed: nat, dropped: nat, strays: nat,
    window: bool, fired: bool,
    connectCalls: nat, replyCalls: nat)

  const NEW_RUN := Run(None, EventNone, None, 0, 0, [], 0, 0, 0, false, false, 0, 0)

  // ---------------------------------------------------------------------------------------------
  // Starting
  // ---------------------------------------------------------------------------------------------

  /** What happens when the pool has no client: a connection attempt, or one of the ways to fail. */
  datatype Fate = Connects | NoServer | ThrowsEarly | ThrowsArmed | ThrowsLate

  /** `run` for a request that has no backend: it fails at once. */
  function NoPeer(): Run {
    NEW_RUN.(failed := 1)
  }

  function Issue(run: Run, kind: OpKind, c: ClientId): Run {
    run.(op := Some(Op(kind, c, false)), event := EventOpened)
  }

  /** `run` with a client from the pool: arm the reply timer and write. */
  function StartPooled(c: ClientId): Run {
    Issue(NEW_RUN.(client := Some(c), replyTimers := 1), Write, c)
  }

  /** `run` without one; `c` is the identity of the client object it may create. */
  function StartAnew(fate: Fate, c: ClientId): Run {
    match fate
    case Connects => Issue(NEW_RUN.(client := Some(c), connectTimers := 1), Connect, c)
    case NoServer => NEW_RUN.(failed := 1)
    case ThrowsEarly => NEW_RUN.(failed := 1)
    case ThrowsArmed => NEW_RUN.(failed := 1, connectTimers := 1)
    case ThrowsLate => NEW_RUN.(failed := 1, connectTimers := 1, client := Some(c))
  }

  predicate Creates(fate: Fate) {
    fate == Connects || fate == ThrowsLate
  }

  // ---------------------------------------------------------------------------------------------
  // Handlers
  // ---------------------------------------------------------------------------------------------

  function Resume(run: Run, state: ModState): Run {
    run.(resumed := run.resumed + [state])
  }

  /** The tail of the non-abort error paths. */
  function CancelThenFail(run: Run, cancelOk: bool): Run {
    if cancelOk then Resume(run, MOD_FAILED) else run.(dropped := run.dropped + 1)
  }

  /** The four socket handlers; `hookOk` is the answer of the head hook, `cancelOk` whether cancelling the
      timer reports no error. */
  function OnSocket(run: Run, result: SocketResult, hookOk: bool, cancelOk: bool): Run
    requires run.op.Some?
  {
    var Op(kind, c, _) := run.op.value;
    var run := run.(op := None);
    if run.event != EventOpened then run.(strays := run.strays + 1)
    else
      var run := run.(event := EventClosed);
      if result == Aborted then Resume(run, MOD_TIMEOUT)
      else match kind
        case Connect =>
          if result == Failure then CancelThenFail(run, cancelOk)
          else if !cancelOk then run.(dropped := run.dropped + 1)
          else Issue(run.(replyTimers := run.replyTimers + 1), Write, c)
        case Write =>
          if result == Failure then CancelThenFail(run, cancelOk) else Issue(run, Head, c)
        case Head =>
          if result == Failure || !hookOk then CancelThenFail(run, cancelOk) else Issue(run, Body, c)
        case Body =>
          if result == Failure then CancelThenFail(run, cancelOk)
          else if !cancelOk then run.(dropped := run.dropped + 1)
          else run.(window := true)
  }

  /** The head handler closes its client when the head is unreadable or refused. */
  predicate ClosesClient(run: Run, result: SocketResult, hookOk: bool, cancelOk: bool) {
    run.op.Some? && run.op.value.kind == Head && run.event == EventOpened
    && result != Aborted && (result == Failure || !hookOk) && cancelOk
  }

  /** The body handler gives its client back. */
  predicate Recollects(run: Run, result: SocketResult, cancelOk: bool) {
    run.op.Some? && run.op.value.kind == Body && run.event == EventOpened && result == Success && cancelOk
  }

  /** The rest of the body handler, after the client went back to the pool. */
  function OnRecollected(run: Run, hookOk: bool): Run
    requires run.window
  {
    Resume(run.(client := None, window := false), if hookOk then MOD_SUCCEED else MOD_FAILED)
  }

  function TimersLeft(run: Run, kind: TimerKind): nat {
    if kind == ConnectTimer then run.connectTimers else run.replyTimers
  }

  /** Both timeout handlers: they only cancel the socket of the client the run holds. */
  function OnTimer(run: Run, kind: TimerKind, result: TimerResult): Run
    requires TimersLeft(run, kind) > 0
  {
    var run :=
      if kind == ConnectTimer
      then run.(connectTimers := run.connectTimers - 1, connectCalls := run.connectCalls + 1)
      else run.(replyTimers := run.replyTimers - 1, replyCalls := run.replyCalls + 1);
    if result == Expired && run.client.Some? then run.(fired := true) else run
  }

  predicate CancelsSocket(run: Run, result: TimerResult) {
    result == Expired && run.client.Some?
  }

  // ---------------------------------------------------------------------------------------------
  // The handlers as the source writes them
  // ---------------------------------------------------------------------------------------------

  class ModuleData {
    var client: Option<ClientId>
    var socketEvent: SocketEvent
    var op: Option<Op>
    var connectTimers: nat
    var replyTimers: nat
    var resumed: seq<ModState>
    var failed: nat
    var dropped: nat
    var strays: nat
    var window: bool
    var fired: bool
    var connectCalls: nat
    var replyCalls: nat

    function Data(): Run
      reads this
    {
      Run(client, socketEvent, op, connectTimers, replyTimers, resumed, failed, dropped, strays, window, fired,
          connectCalls, replyCalls)
    }

    constructor ()
      ensures Data() == NEW_RUN
    {
      client, socketEvent, op, connectTimers, replyTimers := None, EventNone, None, 0, 0;
      resumed, failed, dropped, strays, window, fired := [], 0, 0, 0, false, false;
      connectCalls, replyCalls := 0, 0;
    }

    /** `async_connect`, `async_write` and `async_read`: the operation is in flight from here on. */
    method Async(kind: OpKind)
      requires client.Some?
      modifies this`op, this`socketEvent
      ensures Data() == Issue(old(Data()), kind, client.value)
    {
      op := Some(Op(kind, client.value, false));
      socketEvent := EventOpened;
    }

    method ResumeFsm(state: ModState)
      modifies this`resumed
      ensures Data() == Resume(old(Data()), state)
    {
      resumed := resumed + [state];
    }

    /** The module's `run`; returns false for a synchronous `Mod_Failed`. */
    method Start(peer: int, pool: TcpClientPool, broken: set<ClientId>, fate: Fate, c: ClientId, now: int)
        returns (async: bool)
      requires Data() == NEW_RUN && pool.Valid() && c !in pool.clients
      modifies this, pool
      ensures pool.Valid()
      ensures async == (Data().failed == 0)
      ensures peer == -1 ==> Data() == NoPeer() && pool.Contents() == old(pool.Contents())
      ensures peer != -1 ==>
              var (got, left) := Checkout(old(pool.Contents()), peer, broken, pool.maxTimes);
              && Data() == (if got.Some? then StartPooled(got.value) else StartAnew(fate, c))
              && pool.Contents() ==
                   (if got.None? && Creates(fate)
                       then left.(clients := left.clients[c := Client(peer, 0, false, now)]) else left)
    {
      if peer == -1 {
        failed := 1;
        return false;
      }
      client := pool.GetClient(peer, broken);
      if client.None? {
        if fate == NoServer || fate == ThrowsEarly {
          failed := 1;
          return false;
        }
        connectTimers := 1;
        if fate == ThrowsArmed {
          failed := 1;
          return false;
        }
        pool.clients := pool.clients[c := Client(peer, 0, false, now)];
        client := Some(c);
        if fate == ThrowsLate {
          failed := 1;
          return false;
        }
        Async(Connect);
        return true;
      }
      replyTimers := 1;
      Async(Write);
      return true;
    }

    method OnConnect(result: SocketResult, cancelOk: bool)
      requires op.Some? && op.value.kind == Connect && client == Some(op.value.client)
      modifies this
      ensures Data() == OnSocket(old(Data()), result, true, cancelOk)
    {
      op := None;
      if socketEvent != EventOpened {
        strays := strays + 1;
        return;
      }
      socketEvent := EventClosed;
      if result != Success {
        if result == Aborted {
          ResumeFsm(MOD_TIMEOUT);
        } else {
          if !cancelOk {
            dropped := dropped + 1;
            return;
          }
          ResumeFsm(MOD_FAILED);
        }
      } else {
        if !cancelOk {
          dropped := dropped + 1;
          return;
        }
        replyTimers := replyTimers + 1;
        Async(Write);
      }
    }

    method OnWriteReq(result: SocketResult, cancelOk: bool)
      requires op.Some? && op.value.kind == Write && client == Some(op.value.client)
      modifies this
      ensures Data() == OnSocket(old(Data()), result, true, cancelOk)
    {
      op := None;
      if socketEvent != EventOpened {
        strays := strays + 1;
        return;
      }
      socketEvent := EventClosed;
      if result != Success {
        if result == Aborted {
          ResumeFsm(MOD_TIMEOUT);
        } else {
          if !cancelOk {
            dropped := dropped + 1;
            return;
          }
          ResumeFsm(MOD_FAILED);
        }
      } else {
        Async(Head);
      }
    }

    method OnRecvRespHead(pool: TcpClientPool, result: SocketResult, hookOk: bool, cancelOk: bool)
      requires op.Some? && op.value.kind == Head && client == Some(op.value.client)
      requires pool.Valid() && op.value.client in pool.clients
      modifies this, pool
      ensures Data() == OnSocket(old(Data()), result, hookOk, cancelOk)
      ensures pool.Contents() == if ClosesClient(old(Data()), result, hookOk, cancelOk)
                                 then old(pool.Contents()).(clients := Close(old(pool.clients), old(op).value.client))
                                 else old(pool.Contents())
    {
      op := None;
      if socketEvent != EventOpened {
        strays := strays + 1;
        return;
      }
      socketEvent := EventClosed;
      if result != Success || !hookOk {
        if result == Aborted {
          ResumeFsm(MOD_TIMEOUT);
        } else {
          if !cancelOk {
            dropped := dropped + 1;
            return;
          }
          pool.clients := Close(pool.clients, client.value);
          ResumeFsm(MOD_FAILED);
        }
      } else {
        Async(Body);
      }
    }

    /** Up to the point where the client is back in the pool and still remembered here. */
    method OnRecvRespBody(pool: TcpClientPool, result: SocketResult, cancelOk: bool, now: int)
      requires op.Some? && op.value.kind == Body && client == Some(op.value.client)
      requires pool.Valid() && op.value.client in pool.clients
      modifies this, pool
      ensures Data() == OnSocket(old(Data()), result, true, cancelOk)
      ensures pool.Contents() == if Recollects(old(Data()), result, cancelOk)
                                 then PutBack(old(pool.Contents()), old(op).value.client, now)
                                 else old(pool.Contents())
    {
      op := None;
      if socketEvent != EventOpened {
        strays := strays + 1;
        return;
      }
      socketEvent := EventClosed;
      if result != Success {
        if result == Aborted {
          ResumeFsm(MOD_TIMEOUT);
        } else {
          if !cancelOk {
            dropped := dropped + 1;
            return;
          }
          ResumeFsm(MOD_FAILED);
        }
      } else {
        if !cancelOk {
          dropped := dropped + 1;
          return;
        }
        pool.Recollect(client.value, now);
        window := true;
      }
    }

    method FinishRespBody(hookOk: bool)
      requires window
      modifies this
      ensures Data() == OnRecollected(old(Data()), hookOk)
    {
      client := None;
      window := false;
      var state := if hookOk then MOD_SUCCEED else MOD_FAILED;
      ResumeFsm(state);
    }

    /** `on_handle_connect_time_out` and `on_handle_time_out`; returns the client whose socket is cancelled. */
    method OnTimeOut(kind: TimerKind, result: TimerResult) returns (cancelled: Option<ClientId>)
      requires TimersLeft(Data(), kind) > 0
      modifies this
      ensures Data() == OnTimer(old(Data()), kind, result)
      ensures cancelled == if CancelsSocket(old(Data()), result) then old(client) else None
    {
      if kind == ConnectTimer {
        connectTimers, connectCalls := connectTimers - 1, connectCalls + 1;
      } else {
        replyTimers, replyCalls := replyTimers - 1, replyCalls + 1;
      }
      cancelled := None;
      if result != Expired {
        return;
      }
      if client.Some? {
        cancelled := client;
        fired := true;
      }
    }
  }
}
