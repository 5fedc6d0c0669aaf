/** The receiver's event loop as the program has it: fields updated in place, messages shared by reference
    between the known and the pending map. Each part is proved to compute the function of `ReceiverSpec` it is. */
module Receiver {
  import opened Imap
  import opened Numbers
  import opened FlagCounters
  import opened ReceiverSpec
  import S = ReceiverSystem

  class MessageState {
    const uid: nat
    const seqNum: nat
    const message: Message
    var state: MsgState

    constructor (uid: nat, message: Message)
      ensures this.uid == uid && this.message == message && seqNum == message.seqNum && state == Unacked
    {
      this.uid := uid;
      this.seqNum := message.seqNum;
      this.message := message;
      this.state := Unacked;
    }

    function Value(): Entry
      reads this
    {
      Entry(seqNum, message, state)
    }
  }

  /** The goroutine an iteration starts. */
  datatype Started =
    | Nothing
    | GoIdle(stop: Channel)
    | GoFetch(existing: set<nat>)
    | GoDelete(toProcess: map<nat, MessageState>)

  datatype Verdict = GoesOn | Leaves | Panics(site: PanicSite)

  class MailReceiver {
    const cfg: Config
    const wantQuit: FlagCounter
    const wantFetch: FlagCounter
    const wantDelete: FlagCounter
    const wantStopIdle: FlagCounter
    var state: LoopState
    var messages: map<nat, MessageState>
    var nextToProcess: map<nat, MessageState>
    /** Everything sent on the out channel so far. */
    var out: seq<Message>
    /** How often the client has been told to quit. */
    var clientQuits: nat

    ghost predicate Valid()
      reads this, wantQuit, wantFetch, wantDelete, wantStopIdle
      reads wantQuit.channel, wantFetch.channel, wantDelete.channel, wantStopIdle.channel
    {
      && wantQuit.Valid() && wantFetch.Valid() && wantDelete.Valid() && wantStopIdle.Valid()
      && wantQuit.role == 0 && wantFetch.role == 1 && wantDelete.role == 2 && wantStopIdle.role == 3
      && (forall u :: u in messages ==> messages[u].uid == u)
      && (forall u :: u in nextToProcess ==> nextToProcess[u].uid == u)
    }

    static ghost function Values(m: map<nat, MessageState>): map<nat, Entry>
      reads m.Values
    {
      map u | u in m :: m[u].Value()
    }

    ghost function Known(): map<nat, Entry>
      reads this, messages.Values
    {
      Values(messages)
    }

    ghost function Pending(): map<nat, Entry>
      reads this, nextToProcess.Values
    {
      Values(nextToProcess)
    }

    /** The loop's variables as a value. */
    ghost function View(): Loop
      reads this, wantQuit, wantFetch, wantDelete, wantStopIdle, messages.Values, nextToProcess.Values
    {
      Loop(cfg, state, wantQuit.counter, wantFetch.counter, wantDelete.counter,
           wantStopIdle.counter, wantStopIdle.life.current, Known(), Pending())
    }

    ghost function Counters(): set<object>
      reads wantQuit, wantFetch, wantDelete, wantStopIdle
    {
      {wantQuit, wantFetch, wantDelete, wantStopIdle,
       wantQuit.channel, wantFetch.channel, wantDelete.channel, wantStopIdle.channel}
    }

    constructor (cfg: Config)
      ensures Valid() && View() == FreshLoop(cfg) && out == [] && clientQuits == 0
    {
      this.cfg := cfg;
      wantQuit := new FlagCounter(0);
      wantFetch := new FlagCounter(1);
      wantDelete := new FlagCounter(2);
      wantStopIdle := new FlagCounter(3);
      state := AtRest;
      messages := map[];
      nextToProcess := map[];
      out := [];
      clientQuits := 0;
    }

    method HandleFetch(fetched: map<nat, Message>, order: seq<nat>) returns (num: nat)
      requires Valid() && IsOrder(order, fetched.Keys)
      modifies this`messages, this`out
      ensures Valid()
      ensures Known() == Admit(old(Known()), fetched)
      ensures out == old(out) + NewMessages(old(Known()), fetched, order)
      ensures num == |out| - |old(out)|
      ensures forall u :: u in old(messages) ==> u in messages && messages[u] == old(messages)[u]
      ensures forall u :: u in messages && u !in old(messages) ==> fresh(messages[u])
    {
      num := WalkFetch(fetched, order);
      GrownIsAdmitted(old(messages), messages, fetched, order);
    }

    method WalkFetch(fetched: map<nat, Message>, order: seq<nat>) returns (num: nat)
      requires IsOrder(order, fetched.Keys)
      modifies this`messages, this`out
      ensures Grown(old(messages), messages, fetched, order)
      ensures out == old(out) + NewMessages(old(Known()), fetched, order)
      ensures num == |out| - |old(out)|
      ensures forall u :: u in messages && u !in old(messages) ==> fresh(messages[u])
    {
      num := 0;
      ghost var was, known, sent := messages, Known(), out;
      for i := 0 to |order|
        invariant Walked(was, known, sent, fetched, order, i)
        invariant num == |out| - |sent|
        invariant forall u :: u in messages && u !in was ==> fresh(messages[u])
      {
        num := WalkOne(was, known, sent, fetched, order, i, num);
      }
      assert order[..|order|] == order;
    }

    /** How far the walk has come after `i` of the fetch result's messages. */
    ghost predicate Walked(was: map<nat, MessageState>, known: map<nat, Entry>, sent: seq<Message>,
        fetched: map<nat, Message>, order: seq<nat>, i: nat)
      reads this, messages.Values
      requires IsOrder(order, fetched.Keys) && i <= |order|
    {
      && was.Keys == known.Keys
      && Grown(was, messages, fetched, order[..i])
      && out == sent + NewMessages(known, fetched, order[..i])
    }

    /** The loop body of the fetch: a message with an unknown UID is filed and sent out. */
    method WalkOne(ghost was: map<nat, MessageState>, ghost known: map<nat, Entry>, ghost sent: seq<Message>,
        fetched: map<nat, Message>, order: seq<nat>, i: nat, num: nat) returns (num': nat)
      requires IsOrder(order, fetched.Keys) && i < |order| && Walked(was, known, sent, fetched, order, i)
      requires num == |out| - |sent|
      modifies this`messages, this`out
      ensures Walked(was, known, sent, fetched, order, i + 1)
      ensures num' == |out| - |sent|
      ensures forall u :: u in messages && u !in old(messages) ==> fresh(messages[u])
      ensures forall u :: u in old(messages) ==> u in messages && messages[u] == old(messages)[u]
    {
      var uid := order[i];
      ghost var before := messages;
      var n := AdmitOne(uid, fetched[uid]);
      num' := num + n;
      NewMessagesUpTo(known, fetched, order, i);
      assert uid in before <==> uid in known;
      GrownByOne(was, before, messages, fetched, order, i);
    }

    static lemma GrownByOne(was: map<nat, MessageState>, before: map<nat, MessageState>, now: map<nat, MessageState>,
        fetched: map<nat, Message>, order: seq<nat>, i: nat)
      requires IsOrder(order, fetched.Keys) && i < |order| && Grown(was, before, fetched, order[..i])
      requires order[i] in before ==> now == before
      requires order[i] !in before ==>
        && order[i] in now && now == before[order[i] := now[order[i]]] && now[order[i]].uid == order[i]
        && now[order[i]].Value() == Entry(fetched[order[i]].seqNum, fetched[order[i]], Unacked)
      ensures Grown(was, now, fetched, order[..i + 1])
      ensures order[i] in before <==> order[i] in was
    {
      assert order[..i + 1] == order[..i] + [order[i]];
    }

    method AdmitOne(uid: nat, msg: Message) returns (n: nat)
      modifies this`messages, this`out
      ensures uid in old(messages) ==> messages == old(messages) && out == old(out) && n == 0
      ensures uid !in old(messages) ==>
        && messages.Keys == old(messages).Keys + {uid} && messages == old(messages)[uid := messages[uid]]
        && fresh(messages[uid]) && messages[uid].uid == uid && messages[uid].Value() == Entry(msg.seqNum, msg, Unacked)
        && out == old(out) + [msg] && n == 1
    {
      n := 0;
      if uid !in messages {
        var mstate := new MessageState(uid, msg);
        messages := messages[uid := mstate];
        out := out + [mstate.message];
        n := 1;
      }
    }

    static lemma GrownIsAdmitted(was: map<nat, MessageState>, now: map<nat, MessageState>, fetched: map<nat, Message>,
        walked: seq<nat>)
      requires Grown(was, now, fetched, walked) && IsOrder(walked, fetched.Keys)
      ensures Values(now) == Admit(Values(was), fetched)
    {
      AdmitDomain(Values(was), fetched);
      assert forall u :: u in now <==> u in was || u in fetched;
    }

    /** Walking part of a fetch result has filed its unknown messages, as unacked, and touched no other entry. */
    static ghost predicate Grown(was: map<nat, MessageState>, now: map<nat, MessageState>, fetched: map<nat, Message>,
        walked: seq<nat>)
      reads now.Values
    {
      && (forall u :: u in now <==> u in was || u in walked)
      && (forall u :: u in was ==> u in now && now[u] == was[u])
      && (forall u :: u in now && u !in was ==>
            u in fetched && now[u].uid == u && now[u].Value() == Entry(fetched[u].seqNum, fetched[u], Unacked))
    }

    /** Of a map's entries as they were `before`, only the one under `msg`'s UID sees a change to `msg`. */
    static lemma OneChanged(m: map<nat, MessageState>, before: map<nat, Entry>, msg: MessageState)
      requires m.Keys == before.Keys
      requires forall u :: u in m && u != msg.uid ==> m[u].Value() == before[u]
      ensures Values(m[msg.uid := msg]) == before[msg.uid := msg.Value()]
    {
    }

    /** A deleted message is forgotten; one the server refused to delete is handed back to be queued again. */
    method HandleDelete(uid: nat, answer: MsgState) returns (again: MessageState?)
      requires Valid()
      modifies this`messages, messages.Values
      ensures Valid()
      ensures again == if answer != Deleted && uid in old(messages) then old(messages)[uid] else null
      ensures messages == if answer == Deleted then old(messages) - {uid} else old(messages)
      ensures again == null ==>
        Pending() == old(Pending()) && Known() == if answer == Deleted then old(Known()) - {uid} else old(Known())
      ensures again != null ==>
        var e := old(Known())[uid].(state := answer);
        && again.uid == uid && Known() == old(Known())[uid := e]
        && Values(nextToProcess[uid := again]) == old(Pending())[uid := e]
    {
      again := null;
      if answer == Deleted {
        messages := messages - {uid};
      } else if uid in messages {
        again := messages[uid];
        again.state := answer;
        OneChanged(messages, old(Known()), again);
        OneChanged(nextToProcess, old(Pending()), again);
        assert messages[uid := again] == messages;
      }
    }

    /** An ack without error turns an unacked message into an acked one, which is handed back to be queued. */
    method HandleAck(uid: nat, ok: bool) returns (acked: MessageState?)
      requires Valid()
      modifies messages.Values
      ensures Valid()
      ensures var l := old(View());
        if ok && uid in l.messages && l.messages[uid].state == Unacked then
          var e := l.messages[uid].(state := Acked);
          && acked != null && acked.uid == uid
          && View() == l.(messages := l.messages[uid := e], pending := Pending())
          && Values(nextToProcess[uid := acked]) == l.pending[uid := e]
        else
          acked == null && View() == l
    {
      acked := null;
      if ok && uid in messages && messages[uid].state == Unacked {
        acked := messages[uid];
        acked.state := Acked;
        OneChanged(messages, old(Known()), acked);
        OneChanged(nextToProcess, old(Pending()), acked);
        assert messages[uid := acked] == messages;
      }
    }

    /** Queue a message whose state was just set, and flag the delete unless deletions are off. */
    method Queue(msg: MessageState)
      requires Valid()
      modifies this`nextToProcess, wantDelete`counter, wantDelete`life, wantDelete.channel
      ensures Valid()
      ensures nextToProcess == old(nextToProcess)[msg.uid := msg]
      ensures View() == old(View()).(
        pending := old(Values(nextToProcess[msg.uid := msg])),
        delete := old(wantDelete.counter) + if cfg.disableDeletions then 0 else 1)
    {
      nextToProcess := nextToProcess[msg.uid := msg];
      wantDelete.FlagIf(!cfg.disableDeletions);
    }

    method OnFetch(fetched: map<nat, Message>, order: seq<nat>) returns (panic: Option<PanicSite>)
      requires Valid() && IsOrder(order, fetched.Keys)
      modifies this`messages, this`out
      ensures Valid()
      ensures match Select(old(View()), GotFetch(fetched, order))
        case SelectPanic(site) => panic == Some(site)
        case Selected(l, _, sent) => panic == None && View() == l && out == old(out) + sent
    {
      panic := None;
      if state != InFetch {
        panic := Some(FetchOutsideFetch);
      } else {
        var quitting := wantQuit.IsFlagged();
        if !quitting {
          var _ := HandleFetch(fetched, order);
          assert Pending() == old(Pending());
        }
      }
    }

    method OnAnswer(uid: nat, answer: MsgState) returns (panic: Option<PanicSite>)
      requires Valid()
      modifies this`messages, this`nextToProcess, messages.Values, wantDelete`counter, wantDelete`life,
          wantDelete.channel
      ensures Valid()
      ensures match Select(old(View()), GotAnswer(uid, answer))
        case SelectPanic(site) => panic == Some(site)
        case Selected(l, _, _) => panic == None && View() == l
    {
      panic := None;
      if state != InDelete {
        panic := Some(DeleteOutsideDelete);
      } else {
        var msg := HandleDelete(uid, answer);
        ghost var handled := View();
        if msg != null {
          Queue(msg);
          assert View() == handled.(pending := View().pending, delete := View().delete);
        }
      }
    }

    method OnAck(uid: nat, ok: bool)
      requires Valid()
      modifies this`nextToProcess, messages.Values, wantDelete`counter, wantDelete`life, wantDelete.channel
      ensures Valid()
      ensures View() == ReceiverSpec.HandleAck(old(View()), uid, ok)
    {
      var msg := HandleAck(uid, ok);
      ghost var handled := View();
      if msg != null {
        Queue(msg);
        assert View() == handled.(pending := View().pending, delete := View().delete);
      }
    }

    /** The sequence numbers of all known messages, as recorded when they were fetched. */
    method BuildCurrentSequence() returns (existing: set<nat>)
      ensures existing == KnownSeqNums(Known())
      ensures forall n :: n in existing <==> exists u :: u in messages && messages[u].seqNum == n
    {
      existing := {};
      var left := messages.Keys;
      while left != {}
        invariant left <= messages.Keys
        invariant forall u :: u in messages && u !in left ==> messages[u].seqNum in existing
        invariant forall n :: n in existing ==> n in KnownSeqNums(Known())
        decreases left
      {
        var uid :| uid in left;
        assert Known()[uid].seqNum in KnownSeqNums(Known());
        existing := existing + {messages[uid].seqNum};
        left := left - {uid};
      }
      assert forall n :: n in KnownSeqNums(Known()) ==> n in existing;
    }

    /** What is started is the job: an IDLE gets the stop flag's current channel, still open. */
    ghost predicate Starts(started: Started, job: Job)
      reads this, wantStopIdle, wantStopIdle.channel
      reads if started.GoDelete? then started.toProcess.Values else {}
    {
      match started
      case Nothing => job == NoJob
      case GoIdle(stop) => job == IdleJob(wantStopIdle.life.current) && stop == wantStopIdle.channel
      case GoFetch(existing) => job == FetchJob(existing)
      case GoDelete(toProcess) => job == DeleteJob(Values(toProcess))
    }

    // The loop's uses of its flags, seen from the loop.

    method WantQuit()
      requires Valid()
      modifies this`clientQuits, wantQuit`counter, wantQuit`life, wantQuit.channel
      ensures Valid() && View() == old(View()).(quit := old(View()).quit + 1)
      ensures clientQuits == old(clientQuits) + 1
    {
      wantQuit.Flag();
      clientQuits := clientQuits + 1;
    }

    method WantFetch()
      requires Valid()
      modifies wantFetch`counter, wantFetch`life, wantFetch.channel
      ensures Valid() && View() == old(View()).(fetch := old(View()).fetch + 1)
    {
      wantFetch.Flag();
    }

    method NoFetch()
      requires Valid()
      modifies wantFetch
      ensures Valid() && View() == old(View()).(fetch := 0)
      ensures fresh(wantFetch.channel)
    {
      wantFetch.Reset();
    }

    method WantDelete(really: bool)
      requires Valid()
      modifies wantDelete`counter, wantDelete`life, wantDelete.channel
      ensures Valid() && View() == FlagDelete(old(View()), really)
    {
      if really {
        wantDelete.FlagIf(!cfg.disableDeletions);
      }
    }

    method WantBoth()
      requires Valid()
      modifies wantFetch`counter, wantFetch`life, wantFetch.channel, wantDelete`counter, wantDelete`life,
          wantDelete.channel
      ensures Valid() && View() == TimeoutFlags(old(View()))
    {
      WantFetch();
      WantDelete(true);
    }

    method NoDelete()
      requires Valid()
      modifies wantDelete
      ensures Valid() && View() == old(View()).(delete := 0)
      ensures fresh(wantDelete.channel)
    {
      wantDelete.Reset();
    }

    method StopIdle()
      requires Valid()
      modifies wantStopIdle`counter, wantStopIdle`life, wantStopIdle.channel
      ensures Valid() && View() == old(View()).(stop := old(View()).stop + 1)
      ensures wantStopIdle.channel.closed
    {
      wantStopIdle.Flag();
    }

    method RenewStopIdle()
      requires Valid()
      modifies wantStopIdle
      ensures Valid() && View() == old(View()).(stop := 0, stopChan := old(View()).stopChan + 1)
      ensures !wantStopIdle.channel.closed
    {
      wantStopIdle.Reset();
    }

    method PendingCount() returns (count: nat)
      ensures count == |View().pending|
    {
      assert Pending().Keys == nextToProcess.Keys;
      count := |nextToProcess|;
    }

    /** The end of StateNone: a fetch if one is wanted, an IDLE unless quitting, or out. */
    method FetchIdleOrLeave() returns (started: Started, verdict: Verdict)
      requires Valid()
      modifies this`state, wantFetch
      ensures Valid()
      ensures match FetchIdleOrExit(old(View()))
        case Continue(l, job, _) => verdict == GoesOn && View() == l && Starts(started, job)
        case Exit(l) => verdict == Leaves && View() == l
        case SwitchPanic(_) => false
    {
      started, verdict := Nothing, GoesOn;
      var fetching := wantFetch.IsFlagged();
      var quitting := wantQuit.IsFlagged();
      if fetching {
        started := StartFetch();
      } else if !quitting {
        started := StartIdle();
      } else {
        verdict := Leaves;
      }
    }

    method StartFetch() returns (started: Started)
      requires Valid()
      modifies this`state, wantFetch
      ensures Valid() && View() == old(View()).(fetch := 0, state := InFetch)
      ensures Starts(started, FetchJob(KnownSeqNums(old(View()).messages)))
    {
      NoFetch();
      state := InFetch;
      var existing := BuildCurrentSequence();
      started := GoFetch(existing);
    }

    method StartIdle() returns (started: Started)
      requires Valid()
      modifies this`state
      ensures Valid() && View() == old(View()).(state := InIdle)
      ensures started == GoIdle(wantStopIdle.channel) && Starts(started, IdleJob(old(View()).stopChan))
    {
      state := InIdle;
      started := GoIdle(wantStopIdle.channel);
    }

    /** The start of StateNone: no fetch when quitting, and the batch-size test. */
    method SettleFlags()
      requires Valid()
      modifies wantFetch, wantDelete`counter, wantDelete`life, wantDelete.channel
      ensures Valid() && View() == RestFlags(old(View()))
    {
      var count := PendingCount();
      var quitting := wantQuit.IsFlagged();
      if quitting {
        NoFetch();
      }
      WantDelete(count >= cfg.batchSize);
    }

    /** Hand the pending messages over to a delete. */
    method StartDelete() returns (started: Started)
      requires Valid()
      modifies this`state, this`nextToProcess
      ensures Valid() && View() == old(View()).(state := InDelete, pending := map[])
      ensures started == GoDelete(old(nextToProcess)) && Starts(started, DeleteJob(old(View()).pending))
    {
      state := InDelete;
      started := GoDelete(nextToProcess);
      nextToProcess := map[];
    }

    /** StateNone: start a delete, a fetch or an IDLE, in that order of preference, or leave. */
    method RestState() returns (started: Started, verdict: Verdict)
      requires Valid()
      modifies this`state, this`nextToProcess, wantFetch, wantDelete, wantDelete.channel
      ensures Valid()
      ensures match Rest(old(View()))
        case Continue(l, job, _) => verdict == GoesOn && View() == l && Starts(started, job)
        case Exit(l) => verdict == Leaves && View() == l
        case SwitchPanic(_) => false
    {
      SettleFlags();
      started, verdict := DeleteFetchIdleOrLeave();
    }

    method DeleteFetchIdleOrLeave() returns (started: Started, verdict: Verdict)
      requires Valid()
      modifies this`state, this`nextToProcess, wantFetch, wantDelete
      ensures Valid()
      ensures match Choose(old(View()))
        case Continue(l, job, _) => verdict == GoesOn && View() == l && Starts(started, job)
        case Exit(l) => verdict == Leaves && View() == l
        case SwitchPanic(_) => false
    {
      var count := PendingCount();
      var deleting := wantDelete.IsFlagged();
      if deleting {
        NoDelete();
        if count > 0 {
          started := StartDelete();
          verdict := GoesOn;
          return;
        }
      }
      started, verdict := FetchIdleOrLeave();
    }

    /** The `select` and what follows it directly. */
    method ReceiveEvent(ev: Event) returns (op: Operation, panic: Option<PanicSite>)
      requires Valid() && WellFormed(ev)
      modifies this, wantQuit`counter, wantQuit`life, wantFetch`counter, wantFetch`life, wantDelete`counter,
          wantDelete`life
      modifies wantQuit.channel, wantFetch.channel, wantDelete.channel, messages.Values
      ensures Valid()
      ensures match Select(old(View()), ev)
        case SelectPanic(site) => panic == Some(site)
        case Selected(l, o, sent) => panic == None && op == o && View() == l && out == old(out) + sent
      ensures clientQuits == old(clientQuits) + One(ev == QuitAsked)
    {
      op, panic := OpNone, None;
      match ev
      case QuitAsked => WantQuit();
      case Updated(mailbox) =>
        if mailbox {
          WantFetch();
        }
      case GotFetch(fetched, order) => panic := OnFetch(fetched, order);
      case GotAnswer(uid, answer) => panic := OnAnswer(uid, answer);
      case GotUnknown => panic := Some(InvalidResult);
      case GotAck(uid, ok) => OnAck(uid, ok);
      case TimedOut => op := OpTimeout;
      case GotOp(o) => op := o;
    }

    /** The `switch`, case StateNone. */
    method SwitchAtRest(op: Operation) returns (started: Started, verdict: Verdict)
      requires Valid()
      modifies this`state, this`nextToProcess, wantFetch, wantFetch.channel, wantDelete, wantDelete.channel
      ensures Valid()
      ensures match RestOn(old(View()), op)
        case Continue(l, job, _) => verdict == GoesOn && View() == l && Starts(started, job)
        case Exit(l) => verdict == Leaves && View() == l
        case SwitchPanic(site) => verdict == Panics(site)
    {
      started, verdict := Nothing, Panics(InvalidOpAtRest);
      if op == OpTimeout {
        WantBoth();
      }
      if op == OpNone || op == OpTimeout {
        started, verdict := RestState();
      }
    }

    /** The `switch`, case StateInIDLE. */
    method SwitchInIdle(op: Operation) returns (selfSend: bool, verdict: Verdict)
      requires Valid()
      modifies this`state, wantFetch`counter, wantFetch`life, wantFetch.channel, wantStopIdle, wantStopIdle.channel
      ensures Valid()
      ensures match IdleOn(old(View()), op)
        case Continue(l, job, send) => verdict == GoesOn && View() == l && job == NoJob && selfSend == send
        case Exit(_) => false
        case SwitchPanic(site) => verdict == Panics(site)
    {
      selfSend, verdict := false, GoesOn;
      if op == OpNone || op == OpTimeout {
        WantFetch();
        StopIdle();
      } else if op == IdleFinish {
        RenewStopIdle();
        state := AtRest;
        selfSend := true;
      } else {
        verdict := Panics(InvalidOpInIdle);
      }
    }

    /** The `switch`, case StateInFetch. */
    method SwitchInFetch(op: Operation) returns (selfSend: bool, verdict: Verdict)
      requires Valid()
      modifies this`state
      ensures Valid()
      ensures match FetchOn(old(View()), op)
        case Continue(l, job, send) => verdict == GoesOn && View() == l && job == NoJob && selfSend == send
        case Exit(_) => false
        case SwitchPanic(site) => verdict == Panics(site)
    {
      selfSend, verdict := false, GoesOn;
      match op
      case OpNone =>
      case FetchFinish =>
        state := AtRest;
        selfSend := true;
      case OpTimeout =>
      case _ => verdict := Panics(InvalidOpInFetch);
    }

    /** The `switch`, case StateInDelete. */
    method SwitchInDelete(op: Operation) returns (selfSend: bool, verdict: Verdict)
      requires Valid()
      modifies this`state, wantFetch`counter, wantFetch`life, wantFetch.channel
      ensures Valid()
      ensures match DeleteOn(old(View()), op)
        case Continue(l, job, send) => verdict == GoesOn && View() == l && job == NoJob && selfSend == send
        case Exit(_) => false
        case SwitchPanic(site) => verdict == Panics(site)
    {
      selfSend, verdict := false, GoesOn;
      match op
      case OpNone =>
      case DeleteFinish =>
        state := AtRest;
        selfSend := true;
      case OpTimeout => WantFetch();
      case _ => verdict := Panics(InvalidOpInDelete);
    }

    method SwitchOn(op: Operation) returns (started: Started, selfSend: bool, verdict: Verdict)
      requires Valid()
      modifies this`state, this`nextToProcess, wantFetch, wantFetch.channel, wantDelete, wantDelete.channel,
          wantStopIdle, wantStopIdle.channel
      ensures Valid()
      ensures match Switch(old(View()), op)
        case Continue(l, job, send) => verdict == GoesOn && View() == l && Starts(started, job) && selfSend == send
        case Exit(l) => verdict == Leaves && View() == l
        case SwitchPanic(site) => verdict == Panics(site)
    {
      started, selfSend := Nothing, false;
      match state
      case AtRest => started, verdict := SwitchAtRest(op);
      case InIdle => selfSend, verdict := SwitchInIdle(op);
      case InFetch => selfSend, verdict := SwitchInFetch(op);
      case InDelete => selfSend, verdict := SwitchInDelete(op);
    }

    /** One iteration of the loop. */
    method Iterate(ev: Event) returns (started: Started, selfSend: bool, verdict: Verdict)
      requires Valid() && WellFormed(ev)
      modifies this, Counters(), messages.Values
      ensures Valid()
      ensures match Select(old(View()), ev)
        case SelectPanic(site) => verdict == Panics(site)
        case Selected(l, op, sent) =>
          match Switch(l, op)
          case SwitchPanic(site) => verdict == Panics(site)
          case Exit(l') => verdict == Leaves && View() == l' && out == old(out) + sent
          case Continue(l', job, send) =>
            verdict == GoesOn && View() == l' && out == old(out) + sent && Starts(started, job) && selfSend == send
      ensures clientQuits == old(clientQuits) + One(ev == QuitAsked)
    {
      var op, panic := ReceiveEvent(ev);
      if panic.Some? {
        started, selfSend, verdict := Nothing, false, Panics(panic.value);
      } else {
        started, selfSend, verdict := SwitchOn(op);
      }
    }

    /** In any reachable state of the whole receiver the iteration does what the step relation says, no panic site is
        reached, and an IDLE that is started is given a stop channel that is open. */
    method IterateInRun(ev: Event, ghost s: S.Sys, ghost a: S.Action)
      returns (started: Started, selfSend: bool, leaves: bool)
      requires Valid() && View() == s.loop && out == s.dispatched
      requires S.Steady(s) && S.Enabled(s, a) && S.ByLoop(a) && WellFormed(ev) && ev == S.EventOf(s, a)
      modifies this, Counters(), messages.Values
      ensures Valid() && View() == S.Next(s, a).loop && out == S.Next(s, a).dispatched
      ensures leaves <==> S.Next(s, a).status == S.Exited
      ensures S.Next(s, a).status == S.Running || S.Next(s, a).status == S.Exited
      ensures !leaves ==> exists job ::
        && Starts(started, job)
        && S.Next(s, a).workers == S.Received(s, a).workers + S.Start(job)
        && S.Next(s, a).opChan == S.Received(s, a).opChan + if selfSend then [OpNone] else []
      ensures !leaves && started.GoIdle? ==> !started.stop.closed
    {
      S.IterationGoesOnOrLeaves(s, a);
      S.IdleStartsOpen(Select(s.loop, ev).loop, Select(s.loop, ev).op);
      var verdict;
      started, selfSend, verdict := Iterate(ev);
      leaves := verdict == Leaves;
    }
  }
}
