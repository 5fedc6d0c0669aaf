/** The bodies of the worker goroutines, and that they keep to the worker of the step relation. */
module ReceiverWorkers {
  import opened Imap
  import opened FetchSet
  import opened ReceiverSpec
  import opened ReceiverSystem
  import Paths

  // ---- doFetch

  /** `mailbox` is the message count of the selected mailbox, if there is one; `reply` is what the server sends
      for the fetch, or None when the fetch fails. `asked` is the set fetched, None when nothing is fetched. */
  method DoFetch(mailbox: Option<nat>, existing: set<nat>, maxSize: nat, reply: Option<seq<Message>>)
    returns (asked: Option<set<nat>>, wrapped: bool, result: Option<map<nat, Message>>)
    requires mailbox.Some? ==> mailbox.value < UINT32
    ensures wrapped <==> mailbox.Some? && mailbox.value == UINT32 - 1 && |Free(existing, mailbox.value)| < maxSize
    ensures !wrapped ==> (asked.Some? <==> mailbox.Some? && maxSize > 0 && Free(existing, mailbox.value) != {})
    ensures !wrapped && asked.Some? ==> IsFetchSet(asked.value, existing, mailbox.value, maxSize)
    ensures result.Some? <==> asked.Some? && reply.Some?
    ensures result.Some? ==> forall u :: u in result.value <==> Occurs(reply.value, u)
    ensures result.Some? ==> forall u :: u in result.value ==>
      IsLast(reply.value, result.value[u]) && result.value[u].uid == u
  {
    asked, wrapped, result := None, false, None;
    if mailbox.None? {
      return;
    }
    if mailbox.value == 0 {
      assert Free(existing, 0) == {};
      return;
    }
    var wanted;
    wanted, wrapped := BuildSeqSet(existing, mailbox.value, maxSize);
    if wanted == {} {
      return;
    }
    asked := Some(wanted);
    if reply.Some? {
      var _, messages := ReadMessages(reply.value);
      result := Some(messages);
    }
  }

  // ---- doDelete

  const DELETED_FLAG: string := "\\Deleted"

  /** One message of the server's reply to the store: its UID and flags. */
  datatype Answer = Answer(uid: nat, flags: seq<string>)

  datatype DeleteResult = DeleteResult(uid: nat, state: MsgState)

  function Verdict(a: Answer): DeleteResult {
    DeleteResult(a.uid, if DELETED_FLAG in a.flags then Deleted else Acked)
  }

  function Verdicts(answers: seq<Answer>): seq<DeleteResult> {
    seq(|answers|, i requires 0 <= i < |answers| => Verdict(answers[i]))
  }

  method HasDeletedFlag(flags: seq<string>) returns (found: bool)
    ensures found <==> DELETED_FLAG in flags
  {
    found := false;
    for i := 0 to |flags|
      invariant !found && DELETED_FLAG !in flags[..i]
    {
      if flags[i] == DELETED_FLAG {
        return true;
      }
    }
    assert flags[..|flags|] == flags;
  }

  /** The server answers a store only for UIDs it was given, each at most once. */
  ghost predicate HonestReply(answers: seq<Answer>, store: set<nat>) {
    && (forall i :: 0 <= i < |answers| ==> answers[i].uid in store)
    && (forall i, j :: 0 <= i < j < |answers| ==> answers[i].uid != answers[j].uid)
  }

  /** The results a deleting worker of the step relation may deliver, in order. */
  ghost predicate Delivers(w: Worker, results: seq<DeleteResult>)
    requires w.Deleting?
    decreases |results|
  {
    if results == [] then true
    else if w.resend != {} && !w.issued then
      && results[0].state == Deleted && results[0].uid in w.resend
      && Delivers(w.(resend := w.resend - {results[0].uid}), results[1..])
    else
      && results[0].state != Unacked && results[0].uid in w.unanswered
      && Delivers(w.(issued := true, unanswered := w.unanswered - {results[0].uid}), results[1..])
  }

  /** One result for each entry of the batch that is marked deleted, and no other. */
  ghost predicate TellsDeleted(toProcess: map<nat, Entry>, sent: seq<DeleteResult>) {
    && (forall r :: r in sent ==> r.state == Deleted)
    && (forall u :: DeleteResult(u, Deleted) in sent <==> u in toProcess && toProcess[u].state == Deleted)
  }

  /** One result for each answer, in order: deleted if it carries the flag, and otherwise refused. */
  ghost predicate TellsAnswers(reply: seq<Answer>, sent: seq<DeleteResult>) {
    && |sent| == |reply|
    && forall k :: 0 <= k < |reply| ==>
      && sent[k].uid == reply[k].uid
      && sent[k].state == if "\\Deleted" in reply[k].flags then Deleted else Acked
  }

  /** What a delete asks of the client. */
  datatype ClientCall = UidStore(uids: set<nat>) | Expunge

  /** What a delete asks and tells, in so many words: a store of exactly the acked messages if there are any, then an
      Expunge; and results for the entries marked deleted, followed by results for the answers. */
  ghost predicate IsDelete(toProcess: map<nat, Entry>, reply: seq<Answer>, calls: seq<ClientCall>,
      results: seq<DeleteResult>) {
    if exists u :: u in toProcess && toProcess[u].state == Acked then
      && |calls| == 2 && calls[0].UidStore? && calls[1] == Expunge
      && (forall u :: u in calls[0].uids <==> u in toProcess && toProcess[u].state == Acked)
      && |results| >= |reply|
      && TellsDeleted(toProcess, results[..|results| - |reply|])
      && TellsAnswers(reply, results[|results| - |reply|..])
    else
      calls == [Expunge] && TellsDeleted(toProcess, results)
  }

  lemma DeleteTells(toProcess: map<nat, Entry>, order: seq<nat>, reply: seq<Answer>, calls: seq<ClientCall>,
      results: seq<DeleteResult>)
    requires IsOrder(order, toProcess.Keys)
    requires var acked := InState(toProcess, Acked);
      && calls == (if acked == {} then [] else [UidStore(acked)]) + [Expunge]
      && results == Resent(toProcess, order) + if acked == {} then [] else Verdicts(reply)
    ensures IsDelete(toProcess, reply, calls, results)
  {
    ResentIsTheDeleted(toProcess, order);
    VerdictsTell(reply);
    var resent := Resent(toProcess, order);
    if u :| u in toProcess && toProcess[u].state == Acked {
      assert u in InState(toProcess, Acked);
    }
    if u :| u in InState(toProcess, Acked) {
      assert u in toProcess && toProcess[u].state == Acked;
    }
    if InState(toProcess, Acked) == {} {
      assert results == resent;
    } else {
      assert results[..|resent|] == resent && results[|resent|..] == Verdicts(reply);
    }
  }

  /** `order` is the order in which Go walks the map; `reply` what the server answers if it is asked, whether or not the
      store then ends in an error: neither that nor a failing Expunge changes anything. */
  method DoDelete(toProcess: map<nat, Entry>, order: seq<nat>, reply: seq<Answer>)
    returns (calls: seq<ClientCall>, results: seq<DeleteResult>)
    requires IsOrder(order, toProcess.Keys)
    ensures var acked := InState(toProcess, Acked);
      && calls == (if acked == {} then [] else [UidStore(acked)]) + [Expunge]
      && results == Resent(toProcess, order) + if acked == {} then [] else Verdicts(reply)
    ensures IsDelete(toProcess, reply, calls, results)
  {
    var store: set<nat> := {};
    calls, results := [], [];
    for i := 0 to |order|
      invariant forall u :: u in store <==> u in order[..i] && toProcess[u].state == Acked
      invariant results == Resent(toProcess, order[..i])
    {
      var uid := order[i];
      assert order[..i + 1] == order[..i] + [uid];
      ResentSnoc(toProcess, order[..i], uid);
      if toProcess[uid].state == Acked {
        store := store + {uid};
      } else if toProcess[uid].state == Deleted {
        results := results + [DeleteResult(uid, Deleted)];
      }
    }
    assert order[..|order|] == order;
    assert store == InState(toProcess, Acked);
    if store != {} {
      calls := [UidStore(store)];
      var resent := results;
      for i := 0 to |reply|
        invariant results == resent + Verdicts(reply[..i])
      {
        assert Verdicts(reply[..i + 1]) == Verdicts(reply[..i]) + [Verdict(reply[i])];
        var found := HasDeletedFlag(reply[i].flags);
        results := results + [DeleteResult(reply[i].uid, if found then Deleted else Acked)];
      }
      assert reply[..|reply|] == reply;
    }
    calls := calls + [Expunge];
    DeleteTells(toProcess, order, reply, calls, results);
  }

  /** Messages already marked deleted are sent straight back. */
  function Resent(toProcess: map<nat, Entry>, order: seq<nat>): seq<DeleteResult> {
    if order == [] then []
    else (if order[0] in toProcess && toProcess[order[0]].state == Deleted
          then [DeleteResult(order[0], Deleted)] else [])
         + Resent(toProcess, order[1..])
  }

  lemma {:induction false} ResentWalked(toProcess: map<nat, Entry>, order: seq<nat>)
    ensures var resent := Resent(toProcess, order);
      && (forall r :: r in resent ==> r.state == Deleted)
      && (forall u :: DeleteResult(u, Deleted) in resent <==>
            u in order && u in toProcess && toProcess[u].state == Deleted)
  {
    if order != [] {
      ResentWalked(toProcess, order[1..]);
    }
  }

  lemma ResentIsTheDeleted(toProcess: map<nat, Entry>, order: seq<nat>)
    requires IsOrder(order, toProcess.Keys)
    ensures TellsDeleted(toProcess, Resent(toProcess, order))
  {
    ResentWalked(toProcess, order);
  }

  lemma {:induction false} ResentSnoc(toProcess: map<nat, Entry>, order: seq<nat>, uid: nat)
    requires uid in toProcess
    ensures Resent(toProcess, order + [uid])
         == Resent(toProcess, order) + if toProcess[uid].state == Deleted then [DeleteResult(uid, Deleted)] else []
  {
    if order == [] {
      assert order + [uid] == [uid];
    } else {
      assert (order + [uid])[1..] == order[1..] + [uid];
      ResentSnoc(toProcess, order[1..], uid);
    }
  }

  /** Whatever an honest server answers, what `DoDelete` sends is what the step relation's worker may send. */
  lemma {:induction false} VerdictsAreDeliveries(w: Worker, answers: seq<Answer>)
    requires w.Deleting? && (w.issued || w.resend == {}) && HonestReply(answers, w.unanswered)
    ensures Delivers(w, Verdicts(answers))
    decreases |answers|
  {
    if answers != [] {
      var next := w.(issued := true, unanswered := w.unanswered - {answers[0].uid});
      assert Verdicts(answers)[1..] == Verdicts(answers[1..]);
      VerdictsAreDeliveries(next, answers[1..]);
    }
  }

  lemma {:induction false} ResentThenVerdicts(w: Worker, toProcess: map<nat, Entry>, order: seq<nat>,
      answers: seq<Answer>)
    requires w.Deleting? && !w.issued && HonestReply(answers, w.unanswered)
    requires forall i, j :: 0 <= i < j < |order| ==> order[i] != order[j]
    requires forall u :: u in w.resend <==> u in order && u in toProcess && toProcess[u].state == Deleted
    ensures Delivers(w, Resent(toProcess, order) + Verdicts(answers))
    decreases |order|
  {
    if order == [] {
      assert w.resend == {};
      assert Resent(toProcess, order) + Verdicts(answers) == Verdicts(answers);
      VerdictsAreDeliveries(w, answers);
    } else {
      var u := order[0];
      var rest := Resent(toProcess, order[1..]) + Verdicts(answers);
      if u in w.resend {
        ResentThenVerdicts(w.(resend := w.resend - {u}), toProcess, order[1..], answers);
        assert (Resent(toProcess, order) + Verdicts(answers))[1..] == rest;
      } else {
        ResentThenVerdicts(w, toProcess, order[1..], answers);
        assert Resent(toProcess, order) + Verdicts(answers) == rest;
      }
    }
  }

  /** A delete started on a batch delivers, whatever the walk order, nothing but what the step relation allows. */
  lemma DeleteIsTheWorker(batch: map<nat, Entry>, order: seq<nat>, answers: seq<Answer>)
    requires IsOrder(order, batch.Keys) && HonestReply(answers, InState(batch, Acked))
    ensures Delivers(Start(DeleteJob(batch))[0], Resent(batch, order) + Verdicts(answers))
  {
    ResentThenVerdicts(Start(DeleteJob(batch))[0], batch, order, answers);
  }

  // ---- And that the step relation lets all of it be delivered

  /** The results delivered along a run, in order. */
  function ResultsOf(acts: seq<Action>): seq<DeleteResult> {
    if acts == [] then []
    else (match acts[0]
          case DeliverResend(_, uid) => [DeleteResult(uid, Deleted)]
          case DeliverAnswer(_, uid, gone) => [DeleteResult(uid, if gone then Deleted else Acked)]
          case _ => []) + ResultsOf(acts[1..])
  }

  ghost predicate AtDelete(s: Sys) {
    Inv(s) && s.status == Running && s.loop.state == InDelete && |s.workers| == 1 && s.workers[0].Deleting?
  }

  lemma Issues(s: Sys) returns (t: Sys)
    requires AtDelete(s) && !s.workers[0].issued
    ensures HonestStep(s, IssueStore(0), t) && AtDelete(t) && t.workers[0] == s.workers[0].(issued := true)
        && t.loop == s.loop
  {
    InvKept(s, IssueStore(0));
    t := Next(s, IssueStore(0));
  }

  lemma Delivered(s: Sys, r: DeleteResult) returns (t: Sys)
    requires AtDelete(s) && s.workers[0].issued && r.state != Unacked && r.uid in s.workers[0].unanswered
    ensures HonestStep(s, DeliverAnswer(0, r.uid, r.state == Deleted), t) && AtDelete(t)
    ensures t.workers[0] == s.workers[0].(unanswered := s.workers[0].unanswered - {r.uid})
    ensures t.loop == HandleAnswer(s.loop, r.uid, r.state) && r.uid in s.loop.messages
  {
    var a := DeliverAnswer(0, r.uid, r.state == Deleted);
    InvKept(s, a);
    JustReceives(s, a);
    t := Next(s, a);
  }

  ghost predicate IsDelivery(s: Sys, results: seq<DeleteResult>, tr: seq<Sys>, acts: seq<Action>) {
    Paths.IsPath(HonestStep, tr, acts) && tr[0] == s && ResultsOf(acts) == results
  }

  /** What has become of a message by now: forgotten if the server deleted it, and if not, known and pending again. */
  predicate Settled(l: Loop, r: DeleteResult) {
    if r.state == Deleted then r.uid !in l.messages
    else r.uid in l.messages && l.messages[r.uid].state == Acked && r.uid in l.pending
  }

  /** `u` is as well known and as pending in one as in the other. */
  predicate Untouched(l: Loop, l': Loop, u: nat) {
    && (u in l.messages <==> u in l'.messages) && (u in l.pending <==> u in l'.pending)
    && (u in l.messages && u in l'.messages ==> l.messages[u].state == l'.messages[u].state)
  }

  lemma AnswerSettles(l: Loop, r: DeleteResult)
    requires r.state != Unacked && r.uid in l.messages
    ensures Settled(HandleAnswer(l, r.uid, r.state), r)
    ensures forall u :: u != r.uid ==> Untouched(l, HandleAnswer(l, r.uid, r.state), u)
  {
  }

  lemma DeliverOne(s: Sys, r: DeleteResult, t: Sys, results: seq<DeleteResult>, tr: seq<Sys>, acts: seq<Action>)
    requires HonestStep(s, DeliverAnswer(0, r.uid, r.state == Deleted), t) && r.state != Unacked
    requires IsDelivery(t, results, tr, acts)
    ensures IsDelivery(s, [r] + results, [s] + tr, [DeliverAnswer(0, r.uid, r.state == Deleted)] + acts)
  {
    var a := DeliverAnswer(0, r.uid, r.state == Deleted);
    Paths.Cons(HonestStep, s, a, tr, acts);
    assert ([a] + acts)[1..] == acts;
  }

  lemma IssueFirst(s: Sys, t: Sys, results: seq<DeleteResult>, tr: seq<Sys>, acts: seq<Action>)
    requires HonestStep(s, IssueStore(0), t) && IsDelivery(t, results, tr, acts)
    ensures IsDelivery(s, results, [s] + tr, [IssueStore(0)] + acts)
  {
    Paths.Cons(HonestStep, s, IssueStore(0), tr, acts);
    assert ([IssueStore(0)] + acts)[1..] == acts;
  }

  /** The loop after a delivery, as against before: each result has settled its message, and no message that was not
      being answered for is touched. */
  ghost predicate Settles(s: Sys, results: seq<DeleteResult>, l: Loop)
    requires AtDelete(s)
  {
    && (forall r :: r in results ==> Settled(l, r))
    && (forall u :: u !in s.workers[0].unanswered ==> Untouched(s.loop, l, u))
  }

  lemma SettlesOneMore(s: Sys, r: DeleteResult, t: Sys, results: seq<DeleteResult>, l: Loop)
    requires AtDelete(s) && AtDelete(t) && Settles(t, results, l)
    requires r.state != Unacked && r.uid in s.loop.messages && t.loop == HandleAnswer(s.loop, r.uid, r.state)
    requires r.uid in s.workers[0].unanswered
    requires t.workers[0].unanswered == s.workers[0].unanswered - {r.uid}
    ensures Settles(s, [r] + results, l)
  {
    AnswerSettles(s.loop, r);
    assert Untouched(t.loop, l, r.uid);
    forall u | u !in s.workers[0].unanswered
      ensures Untouched(s.loop, l, u)
    {
      assert Untouched(s.loop, t.loop, u) && Untouched(t.loop, l, u);
    }
  }

  /** Whatever the worker may deliver, there is a run of the receiver in which it does, result by result, and each
      result settles its message. */
  lemma {:induction false} DeliveriesAreRuns(s: Sys, results: seq<DeleteResult>)
    returns (tr: seq<Sys>, acts: seq<Action>)
    requires AtDelete(s) && Delivers(s.workers[0], results)
    ensures IsDelivery(s, results, tr, acts) && Settles(s, results, tr[|acts|].loop)
    decreases |results|, !s.workers[0].issued
  {
    if results == [] {
      tr, acts := [s], [];
    } else if !s.workers[0].issued {
      var t := Issues(s);
      tr, acts := DeliveriesAreRuns(t, results);
      IssueFirst(s, t, results, tr, acts);
      tr, acts := [s] + tr, [IssueStore(0)] + acts;
    } else {
      tr, acts := DeliverNext(s, results);
    }
  }

  lemma {:induction false} DeliverNext(s: Sys, results: seq<DeleteResult>) returns (tr: seq<Sys>, acts: seq<Action>)
    requires AtDelete(s) && Delivers(s.workers[0], results) && results != [] && s.workers[0].issued
    ensures IsDelivery(s, results, tr, acts) && Settles(s, results, tr[|acts|].loop)
    decreases |results|, false, 0
  {
    var r := results[0];
    var t := Delivered(s, r);
    tr, acts := DeliveriesAreRuns(t, results[1..]);
    DeliverOne(s, r, t, results[1..], tr, acts);
    SettlesOneMore(s, r, t, results[1..], tr[|acts|].loop);
    assert [r] + results[1..] == results;
    tr, acts := [s] + tr, [DeliverAnswer(0, r.uid, r.state == Deleted)] + acts;
  }

  lemma VerdictsTell(answers: seq<Answer>)
    ensures TellsAnswers(answers, Verdicts(answers))
  {
  }

  /** All that `DoDelete` sends for a batch, whatever the walk order and an honest server's answers, is delivered in
      some run of the receiver from the state in which the delete has just been started. At its end each message that
      was answered for with the deleted flag is forgotten, and each that was answered for without it is known, acked
      and pending again. */
  lemma DeleteIsARun(s: Sys, batch: map<nat, Entry>, order: seq<nat>, answers: seq<Answer>)
    returns (tr: seq<Sys>, acts: seq<Action>)
    requires AtDelete(s) && s.workers == Start(DeleteJob(batch))
    requires IsOrder(order, batch.Keys) && HonestReply(answers, InState(batch, Acked))
    ensures IsDelivery(s, Resent(batch, order) + Verdicts(answers), tr, acts)
    ensures var l := tr[|acts|].loop;
      forall k :: 0 <= k < |answers| ==>
        var u := answers[k].uid;
        if "\\Deleted" in answers[k].flags then u !in l.messages
        else u in l.messages && l.messages[u].state == Acked && u in l.pending
  {
    DeleteIsTheWorker(batch, order, answers);
    var results := Resent(batch, order) + Verdicts(answers);
    tr, acts := DeliveriesAreRuns(s, results);
    VerdictsTell(answers);
    forall k | 0 <= k < |answers|
      ensures Settled(tr[|acts|].loop, Verdicts(answers)[k])
    {
      assert results[|Resent(batch, order)| + k] == Verdicts(answers)[k];
    }
  }
}
