/** The receiver's event loop as functions: one iteration is the `select` followed by the `switch` on the state. */
module ReceiverSpec {
  import opened Imap

  datatype MsgState = Unacked | Acked | Deleted

  datatype Entry = Entry(seqNum: nat, message: Message, state: MsgState)

  datatype LoopState = AtRest | InIdle | InFetch | InDelete

  datatype Operation = OpNone | IdleFinish | FetchFinish | DeleteFinish | OpTimeout

  datatype Config = Config(batchSize: nat, disableDeletions: bool)

  /** The loop's variables. The four flags are counts; `stopChan` names the channel the stop flag closes. */
  datatype Loop = Loop(
    cfg: Config,
    state: LoopState,
    quit: nat,
    fetch: nat,
    delete: nat,
    stop: nat,
    stopChan: nat,
    messages: map<nat, Entry>,
    pending: map<nat, Entry>)

  datatype Event =
    | QuitAsked
    | Updated(mailbox: bool)
    | GotFetch(fetched: map<nat, Message>, order: seq<nat>)
    | GotAnswer(uid: nat, answer: MsgState)
    | GotUnknown
    | GotAck(uid: nat, ok: bool)
    | TimedOut
    | GotOp(op: Operation)

  datatype PanicSite =
    | FetchOutsideFetch
    | DeleteOutsideDelete
    | InvalidResult
    | InvalidOpAtRest
    | InvalidOpInIdle
    | InvalidOpInFetch
    | InvalidOpInDelete

  datatype Selection =
    | Selected(loop: Loop, op: Operation, out: seq<Message>)
    | SelectPanic(site: PanicSite)

  /** The goroutine an iteration starts, if any. */
  datatype Job = NoJob | IdleJob(stop: nat) | FetchJob(existing: set<nat>) | DeleteJob(batch: map<nat, Entry>)

  datatype Outcome =
    | Continue(loop: Loop, job: Job, selfSend: bool)
    | Exit(loop: Loop)
    | SwitchPanic(site: PanicSite)

  /** An order in which Go may walk a map with these keys: each key once. */
  ghost predicate IsOrder(order: seq<nat>, keys: set<nat>) {
    && (forall i, j :: 0 <= i < j < |order| ==> order[i] != order[j])
    && (forall u :: u in order <==> u in keys)
  }

  ghost predicate WellFormed(ev: Event) {
    ev.GotFetch? ==> IsOrder(ev.order, ev.fetched.Keys)
  }

  /** The known messages after a fetch: those already known are left alone. */
  function Admit(known: map<nat, Entry>, fetched: map<nat, Message>): map<nat, Entry> {
    known + map uid | uid in fetched.Keys - known.Keys :: Entry(fetched[uid].seqNum, fetched[uid], Unacked)
  }

  /** The messages sent on the out channel when the fetch result is walked in this order. */
  function NewMessages(known: map<nat, Entry>, fetched: map<nat, Message>, order: seq<nat>): seq<Message>
    requires forall u :: u in order ==> u in fetched
  {
    if order == [] then []
    else (if order[0] in known then [] else [fetched[order[0]]]) + NewMessages(known, fetched, order[1..])
  }

  function Schedule(l: Loop, uid: nat, e: Entry): Loop {
    l.(messages := l.messages[uid := e],
       pending := l.pending[uid := e],
       delete := if l.cfg.disableDeletions then l.delete else l.delete + 1)
  }

  function HandleAck(l: Loop, uid: nat, ok: bool): Loop {
    if ok && uid in l.messages && l.messages[uid].state == Unacked
    then Schedule(l, uid, l.messages[uid].(state := Acked))
    else l
  }

  function HandleAnswer(l: Loop, uid: nat, answer: MsgState): Loop {
    if answer == Deleted then l.(messages := l.messages - {uid})
    else if uid in l.messages then Schedule(l, uid, l.messages[uid].(state := answer))
    else l
  }

  function Select(l: Loop, ev: Event): Selection
    requires WellFormed(ev)
  {
    match ev
    case QuitAsked => Selected(l.(quit := l.quit + 1), OpNone, [])
    case Updated(mailbox) => Selected(if mailbox then l.(fetch := l.fetch + 1) else l, OpNone, [])
    case GotFetch(fetched, order) =>
      if l.state != InFetch then SelectPanic(FetchOutsideFetch)
      else if l.quit > 0 then Selected(l, OpNone, [])
      else Selected(l.(messages := Admit(l.messages, fetched)), OpNone, NewMessages(l.messages, fetched, order))
    case GotAnswer(uid, answer) =>
      if l.state != InDelete then SelectPanic(DeleteOutsideDelete)
      else Selected(HandleAnswer(l, uid, answer), OpNone, [])
    case GotUnknown => SelectPanic(InvalidResult)
    case GotAck(uid, ok) => Selected(HandleAck(l, uid, ok), OpNone, [])
    case TimedOut => Selected(l, OpTimeout, [])
    case GotOp(op) => Selected(l, op, [])
  }

  function FlagDelete(l: Loop, really: bool): Loop {
    if really && !l.cfg.disableDeletions then l.(delete := l.delete + 1) else l
  }

  function KnownSeqNums(known: map<nat, Entry>): set<nat> {
    set uid | uid in known :: known[uid].seqNum
  }

  /** The StateNone case, once the operation has been accepted: the flags are settled, then one thing is chosen. */
  function Rest(l: Loop): Outcome {
    Choose(RestFlags(l))
  }

  function Choose(l: Loop): Outcome {
    if l.delete > 0 && |l.pending| > 0 then
      Continue(l.(delete := 0, state := InDelete, pending := map[]), DeleteJob(l.pending), false)
    else
      FetchIdleOrExit(l.(delete := 0))
  }

  function RestFlags(l: Loop): Loop {
    FlagDelete(if l.quit > 0 then l.(fetch := 0) else l, |l.pending| >= l.cfg.batchSize)
  }

  function FetchIdleOrExit(l: Loop): Outcome {
    if l.fetch > 0 then
      Continue(l.(fetch := 0, state := InFetch), FetchJob(KnownSeqNums(l.messages)), false)
    else if l.quit == 0 then
      Continue(l.(state := InIdle), IdleJob(l.stopChan), false)
    else
      Exit(l)
  }

  function RestOn(l: Loop, op: Operation): Outcome {
    match op
    case OpNone => Rest(l)
    case OpTimeout => Rest(TimeoutFlags(l))
    case _ => SwitchPanic(InvalidOpAtRest)
  }

  /** A timeout at rest asks for a fetch and, unless deletions are off, a delete. */
  function TimeoutFlags(l: Loop): Loop {
    FlagDelete(l.(fetch := l.fetch + 1), true)
  }

  function IdleOn(l: Loop, op: Operation): Outcome {
    match op
    case OpNone => Continue(l.(fetch := l.fetch + 1, stop := l.stop + 1), NoJob, false)
    case OpTimeout => Continue(l.(fetch := l.fetch + 1, stop := l.stop + 1), NoJob, false)
    case IdleFinish => Continue(l.(stop := 0, stopChan := l.stopChan + 1, state := AtRest), NoJob, true)
    case _ => SwitchPanic(InvalidOpInIdle)
  }

  function FetchOn(l: Loop, op: Operation): Outcome {
    match op
    case OpNone => Continue(l, NoJob, false)
    case OpTimeout => Continue(l, NoJob, false)
    case FetchFinish => Continue(l.(state := AtRest), NoJob, true)
    case _ => SwitchPanic(InvalidOpInFetch)
  }

  function DeleteOn(l: Loop, op: Operation): Outcome {
    match op
    case OpNone => Continue(l, NoJob, false)
    case OpTimeout => Continue(l.(fetch := l.fetch + 1), NoJob, false)
    case DeleteFinish => Continue(l.(state := AtRest), NoJob, true)
    case _ => SwitchPanic(InvalidOpInDelete)
  }

  function Switch(l: Loop, op: Operation): Outcome {
    match l.state
    case AtRest => RestOn(l, op)
    case InIdle => IdleOn(l, op)
    case InFetch => FetchOn(l, op)
    case InDelete => DeleteOn(l, op)
  }

  function FreshLoop(cfg: Config): Loop {
    Loop(cfg, AtRest, 0, 0, 0, 0, 0, map[], map[])
  }

  // ---- What a fetch dispatches

  lemma {:induction false} NewMessagesSnoc(known: map<nat, Entry>, fetched: map<nat, Message>, order: seq<nat>,
      uid: nat)
    requires forall u :: u in order + [uid] ==> u in fetched
    ensures NewMessages(known, fetched, order + [uid])
         == NewMessages(known, fetched, order) + if uid in known then [] else [fetched[uid]]
  {
    if order == [] {
      assert order + [uid] == [uid];
    } else {
      assert (order + [uid])[1..] == order[1..] + [uid];
      NewMessagesSnoc(known, fetched, order[1..], uid);
    }
  }

  lemma NewMessagesUpTo(known: map<nat, Entry>, fetched: map<nat, Message>, order: seq<nat>, i: nat)
    requires forall u :: u in order ==> u in fetched
    requires i < |order|
    ensures NewMessages(known, fetched, order[..i + 1])
         == NewMessages(known, fetched, order[..i]) + if order[i] in known then [] else [fetched[order[i]]]
  {
    assert order[..i + 1] == order[..i] + [order[i]];
    NewMessagesSnoc(known, fetched, order[..i], order[i]);
  }

  lemma {:induction false} NewMessageCount(known: map<nat, Entry>, fetched: map<nat, Message>, order: seq<nat>,
      uid: nat)
    requires forall u :: u in order ==> u in fetched && fetched[u].uid == u
    requires forall i, j :: 0 <= i < j < |order| ==> order[i] != order[j]
    ensures Uids(NewMessages(known, fetched, order))[uid] == if uid in order && uid !in known then 1 else 0
  {
    if order != [] {
      NewMessageCount(known, fetched, order[1..], uid);
      assert order[0] !in order[1..];
      assert uid in order <==> uid == order[0] || uid in order[1..];
      var rest := NewMessages(known, fetched, order[1..]);
      if order[0] in known {
        assert [] + rest == rest;
      } else {
        assert ([fetched[order[0]]] + rest)[1..] == rest;
      }
    }
  }

  lemma {:induction false} NewMessageIsFetched(known: map<nat, Entry>, fetched: map<nat, Message>, order: seq<nat>,
      m: Message)
    requires forall u :: u in order ==> u in fetched && fetched[u].uid == u
    requires m in NewMessages(known, fetched, order)
    ensures m.uid in order && m.uid !in known && m == fetched[m.uid]
  {
    if order[0] in known || m != fetched[order[0]] {
      NewMessageIsFetched(known, fetched, order[1..], m);
    }
  }

  lemma NewMessagesUids(known: map<nat, Entry>, fetched: map<nat, Message>, order: seq<nat>)
    requires IsOrder(order, fetched.Keys)
    requires forall u :: u in fetched ==> fetched[u].uid == u
    ensures Uids(NewMessages(known, fetched, order)) == multiset(fetched.Keys - known.Keys)
  {
    var out := Uids(NewMessages(known, fetched, order));
    var unknown := fetched.Keys - known.Keys;
    forall u
      ensures out[u] == multiset(unknown)[u]
    {
      NewMessageCount(known, fetched, order, u);
    }
  }

  lemma AdmitDomain(known: map<nat, Entry>, fetched: map<nat, Message>)
    ensures Admit(known, fetched).Keys == known.Keys + (fetched.Keys - known.Keys)
  {
  }

  lemma AdmitKeys(known: map<nat, Entry>, fetched: map<nat, Message>)
    ensures Admit(known, fetched).Keys == known.Keys + fetched.Keys
    ensures forall u :: u in known ==> Admit(known, fetched)[u] == known[u]
    ensures forall u :: u in fetched && u !in known ==>
      Admit(known, fetched)[u] == Entry(fetched[u].seqNum, fetched[u], Unacked)
  {
  }

  /** Whatever order the fetch result is walked in, exactly the unknown messages go out, once each,
      and become known as unacked; nothing already known changes. */
  lemma FetchDispatchesTheUnknown(l: Loop, fetched: map<nat, Message>, order: seq<nat>)
    requires IsOrder(order, fetched.Keys)
    requires forall u :: u in fetched ==> fetched[u].uid == u
    requires l.state == InFetch && l.quit == 0
    ensures Select(l, GotFetch(fetched, order)).Selected?
    ensures Uids(Select(l, GotFetch(fetched, order)).out) == multiset(fetched.Keys - l.messages.Keys)
    ensures forall m :: m in Select(l, GotFetch(fetched, order)).out ==>
      m.uid in fetched && m.uid !in l.messages && m == fetched[m.uid]
    ensures Select(l, GotFetch(fetched, order)).loop.messages.Keys == l.messages.Keys + fetched.Keys
    ensures forall u :: u in l.messages ==> Select(l, GotFetch(fetched, order)).loop.messages[u] == l.messages[u]
    ensures forall u :: u in fetched && u !in l.messages ==>
      Select(l, GotFetch(fetched, order)).loop.messages[u] == Entry(fetched[u].seqNum, fetched[u], Unacked)
  {
    NewMessagesUids(l.messages, fetched, order);
    var out := NewMessages(l.messages, fetched, order);
    forall m | m in out
      ensures m.uid in fetched && m.uid !in l.messages && m == fetched[m.uid]
    {
      NewMessageIsFetched(l.messages, fetched, order, m);
    }
    AdmitKeys(l.messages, fetched);
  }
}
