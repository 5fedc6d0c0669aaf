/** The reconnecting client as the program has it. Each method is proved to take the client to the state that
    `ClientSpec` gives for the same event, and `Run` does so for whole runs. */
module PersistentClient {
  import opened Imap
  import opened Backoff
  import opened ClientSpec
  import opened ClientRuns

  datatype ClientState = StateDisconnected | StateConnected

  class PersistentIMAPClient {
    const maxDelay: nat
    var c: Option<nat>
    var idle: Option<IdleRequest>
    var stopIdle: Option<nat>
    var shutdown: bool
    // the loop's own variables
    var state: ClientState
    var nextDelay: nat
    var exited: bool
    var panicked: Option<Fault>
    // senders blocked on the channels
    var idleChannel: seq<IdleRequest>
    var logoutChannel: Option<nat>
    var ch: seq<Request>
    // what others see of it: replies, the IDLEs run on connections, and logouts of connections
    var replies: seq<Answer>
    var idlesRun: seq<(IdleRequest, Option<nat>, nat)>
    var logouts: nat

    /** The object is in the state `g` says. */
    ghost predicate Shows(g: Client)
      reads this
    {
      && (state.StateConnected? <==> g.connected) && c == g.conn && nextDelay == g.delay && maxDelay == g.maxDelay
      && idle == g.idle && stopIdle == g.stopIdle && shutdown == g.shutdown && exited == g.exited
      && panicked == g.fault && idleChannel == g.idleWaiting && logoutChannel == g.logoutWaiting && ch == g.queue
      && replies == g.answers && idlesRun == g.handed && logouts == g.loggedOut
    }

    /** A maximum delay of zero means the default; anything else below a second means a second. */
    constructor (configured: int)
      ensures Shows(FreshClient(configured))
      ensures maxDelay == if configured == 0 then 64_000_000_000
                          else if configured < 1_000_000_000 then 1_000_000_000 else configured
    {
      maxDelay := if configured == 0 then 64 * SECOND else if configured < SECOND then SECOND else configured;
      c, idle, stopIdle, shutdown := None, None, None, false;
      state, nextDelay, exited, panicked := StateDisconnected, 0, false, None;
      idleChannel, logoutChannel, ch := [], None, [];
      replies, idlesRun, logouts := [], [], 0;
    }

    method Reply(caller: Caller, reply: Reply)
      modifies this`replies
      ensures replies == old(replies) + [Answer(caller, reply)]
    {
      replies := replies + [Answer(caller, reply)];
    }

    // ---- Callers, up to where they block

    /** `sawShutdown` is the flag as the caller read it, possibly some time ago. */
    method Idle(r: IdleRequest, sawShutdown: bool, ghost g: Client)
      requires Shows(g) && Enabled(g, CallIdle(r, sawShutdown))
      modifies this`replies, this`idleChannel
      ensures Shows(Next(g, CallIdle(r, sawShutdown)))
    {
      if sawShutdown {
        Reply(ForIdle(r), ReplyClosed);
        return;
      }
      idleChannel := idleChannel + [r];
    }

    method Call(req: Request, sawShutdown: bool, ghost g: Client)
      requires Shows(g) && Enabled(g, ClientSpec.Call(req, sawShutdown))
      modifies this`replies, this`ch
      ensures Shows(Next(g, ClientSpec.Call(req, sawShutdown)))
    {
      if sawShutdown {
        Reply(ForRequest(req), if req.kind.MailboxCall? then ReplyMailboxName else ReplyClosed);
        return;
      }
      ch := ch + [req];
    }

    /** Only the caller that sets the flag goes on to ask the loop. */
    method Logout(id: nat, ghost g: Client)
      requires Shows(g)
      modifies this`replies, this`shutdown, this`logoutChannel
      ensures Shows(Next(g, CallLogout(id)))
    {
      var already := shutdown;
      shutdown := true;
      if already {
        Reply(ForLogout(id), ReplyNil);
        return;
      }
      logoutChannel := Some(id);
    }

    // ---- The loop

    /** The select of the disconnected state, but for a logout. Any of the callers blocked in Idle may be the one
        received from. "Not in idle" is never reached. */
    method WakeUp(wake: Wake, attempt: Attempt, ghost g: Client)
      requires Shows(g) && Shape(g) && Enabled(g, Disconnected(wake, attempt))
      modifies this`idle, this`stopIdle, this`idleChannel, this`replies, this`panicked
      ensures Shows(Woken(g, wake))
      ensures panicked == if wake.TakeIdle? && g.idle.Some? then Some(AlreadyInIdle) else None
    {
      match wake
      case StopFires =>
        if idle == None {
          assert false;
        } else {
          Reply(ForIdle(idle.value), ReplyNil);
          idle := None;
          stopIdle := None;
        }
      case TakeIdle(k) =>
        if idle.Some? {
          panicked := Some(AlreadyInIdle);
        } else {
          idle := Some(idleChannel[k]);
          idleChannel := Without(idleChannel, k);
          stopIdle := idle.value.stop;
        }
      case DelayOver =>
    }

    method Connect(attempt: Attempt, ghost g: Client)
      requires Shows(g) && g.delay <= g.maxDelay && !g.connected
      modifies this`c, this`state, this`nextDelay
      ensures Shows(Attempted(g, attempt))
    {
      match attempt
      case Fails(jitter) =>
        if nextDelay == 0 {
          nextDelay := SECOND;
        } else {
          nextDelay := 2 * (nextDelay - nextDelay % SECOND);
        }
        nextDelay := nextDelay + jitter * MILLISECOND;
        if nextDelay > maxDelay {
          nextDelay := maxDelay;
        }
      case Connects(conn) =>
        c := Some(conn);
        state := StateConnected;
        nextDelay := SECOND;
    }

    method WhileDisconnected(wake: Wake, attempt: Attempt, ghost g: Client)
      requires Shows(g) && Sound(g) && Enabled(g, Disconnected(wake, attempt))
      modifies this`idle, this`stopIdle, this`idleChannel, this`replies, this`panicked
      modifies this`c, this`state, this`nextDelay
      ensures Shows(Next(g, Disconnected(wake, attempt)))
    {
      WakeUp(wake, attempt, g);
      WokenSound(g, wake, attempt);
      if panicked == None {
        Connect(attempt, Woken(g, wake));
      }
    }

    method UpgradeIdle(result: nat, ghost g: Client)
      requires Shows(g) && Shape(g) && Enabled(g, Upgrade(result))
      modifies this`idle, this`stopIdle, this`replies, this`idlesRun
      ensures Shows(Next(g, Upgrade(result)))
      ensures replies == old(replies) + [Answer(ForIdle(g.idle.value), ReplyResult(result))]
    {
      var stop := stopIdle;
      stopIdle := None;
      idlesRun := idlesRun + [(idle.value, stop, idle.value.opts)];
      Reply(ForIdle(idle.value), ReplyResult(result));
      idle := None;
    }

    method LoseConnection(ghost g: Client)
      requires Shows(g) && Shape(g) && Enabled(g, Disconnects)
      modifies this`c, this`state
      ensures Shows(Next(g, Disconnects))
    {
      c := None;
      state := StateDisconnected;
    }

    method RunIdle(k: nat, result: nat, ghost g: Client)
      requires Shows(g) && Shape(g) && Enabled(g, DirectIdle(k, result))
      modifies this`idleChannel, this`replies, this`idlesRun
      ensures Shows(Next(g, DirectIdle(k, result)))
      ensures replies == old(replies) + [Answer(ForIdle(old(idleChannel)[k]), ReplyResult(result))]
    {
      var req := idleChannel[k];
      idleChannel := Without(idleChannel, k);
      idlesRun := idlesRun + [(req, req.stop, req.opts)];
      Reply(ForIdle(req), ReplyResult(result));
    }

    /** Any of the blocked callers may be the one received from. */
    method Forward(k: nat, result: nat, ghost g: Client)
      requires Shows(g) && Shape(g) && Enabled(g, Serve(k, result))
      modifies this`ch, this`replies
      ensures Shows(Next(g, Serve(k, result)))
      ensures replies == old(replies) + [Answer(ForRequest(old(ch)[k]), ReplyResult(result))]
    {
      var req := ch[k];
      ch := Without(ch, k);
      Reply(ForRequest(req), ReplyResult(result));
    }

    /** A logout taken while disconnected ends the IDLE being held. */
    method EndHeldIdle(ghost g: Client)
      requires Shows(g)
      modifies this`idle, this`stopIdle, this`replies
      ensures Shows(HeldIdleEnded(g))
    {
      if state == StateDisconnected && idle.Some? {
        Reply(ForIdle(idle.value), ReplyNil);
        idle := None;
        stopIdle := None;
      }
    }

    method AnswerLogout(ghost g: Client)
      requires Shows(g) && g.logoutWaiting.Some?
      modifies this`logoutChannel, this`shutdown, this`replies, this`c, this`logouts
      ensures Shows(LoggedOut(g))
    {
      var logout := logoutChannel.value;
      logoutChannel := None;
      shutdown := true;
      Reply(ForLogout(logout), ReplyNil);
      if c.Some? {
        logouts := logouts + 1;
        c := None;
      }
    }

    /** From the acceptance of a logout to the end of the loop. */
    method Finish(ghost g: Client)
      requires Shows(g) && g.fault == None && g.logoutWaiting.Some? && (g.connected ==> g.conn.Some?)
      requires Enabled(g, ClientSpec.Logout)
      modifies this
      ensures Shows(Next(g, ClientSpec.Logout))
    {
      EndHeldIdle(g);
      AnswerLogout(HeldIdleEnded(g));
      DrainRequests(LoggedOut(HeldIdleEnded(g)));
      exited := true;
    }

    method DrainRequests(ghost g: Client)
      requires Shows(g) && logoutChannel == None
      modifies this`idleChannel, this`ch, this`replies
      ensures Shows(SentAway(g).(exited := g.exited))
    {
      DrainIdlers();
      DrainCalls();
    }

    /** Until nobody is blocked in Idle. */
    method DrainIdlers()
      modifies this`idleChannel, this`replies
      ensures idleChannel == [] && replies == old(replies) + TurnedAway(old(idleChannel))
    {
      while idleChannel != []
        invariant replies + TurnedAway(idleChannel) == old(replies) + TurnedAway(old(idleChannel))
        decreases |idleChannel|
      {
        var req := idleChannel[0];
        idleChannel := idleChannel[1..];
        Reply(ForIdle(req), ReplyClosed);
      }
    }

    /** Until nobody is blocked: each call gets its reply, in turn, but for the Selects. */
    method DrainCalls()
      modifies this`ch, this`replies
      ensures ch == [] && replies == old(replies) + Drained(old(ch))
    {
      while ch != []
        invariant replies + Drained(ch) == old(replies) + Drained(old(ch))
        decreases |ch|
      {
        var req := ch[0];
        ch := ch[1..];
        match req.kind
        case SelectCall =>
        case MailboxCall => Reply(ForRequest(req), ReplyMailboxName);
        case _ => Reply(ForRequest(req), ReplyClosed);
      }
    }

    /** One event, a caller's or the loop's. */
    method Do(a: Action, ghost g: Client)
      requires Shows(g) && Inv(g) && Enabled(g, a)
      modifies this
      ensures Shows(Next(g, a))
    {
      match a
      case CallIdle(r, saw) => Idle(r, saw, g);
      case Call(req, saw) => Call(req, saw, g);
      case CallLogout(id) => Logout(id, g);
      case CloseStop(_) =>
      case Disconnected(wake, attempt) => WhileDisconnected(wake, attempt, g);
      case Upgrade(result) => UpgradeIdle(result, g);
      case Disconnects => LoseConnection(g);
      case DirectIdle(k, result) => RunIdle(k, result, g);
      case Serve(k, result) => Forward(k, result, g);
      case Logout => Finish(g);
    }

    /** Whatever happens, in whatever order, the object is where the run of the model is. */
    method Run(acts: seq<Action>, ghost configured: int, ghost tr: seq<Client>)
      requires IsRun(configured, tr, acts) && Shows(tr[0])
      modifies this
      ensures Shows(tr[|acts|])
    {
      for i := 0 to |acts|
        invariant Shows(tr[i])
      {
        RunInv(configured, tr, acts, i);
        assert Step(tr[i], acts[i], tr[i + 1]);
        Do(acts[i], tr[i]);
      }
    }
  }
}
