/** What the reconnecting client tells its callers and does with its connections, in every run, told from the actions
    of the run alone. */
module ClientReplies {
  import opened Imap
  import opened Backoff
  import opened ClientSpec
  import opened ClientRuns
  import Paths

  lemma OneStep(configured: int, tr: seq<Client>, acts: seq<Action>, j: nat)
    requires IsRun(configured, tr, acts) && j < |acts|
    ensures Inv(tr[j]) && Enabled(tr[j], acts[j]) && tr[j + 1] == Next(tr[j], acts[j])
  {
    RunInv(configured, tr, acts, j);
    assert Step(tr[j], acts[j], tr[j + 1]);
  }

  // ---- Which replies there are

  /** The replies that are results of a connection, and those that are nil. */
  function ResultsIn(answers: seq<Answer>): seq<(Caller, nat)> {
    if answers == [] then [] else ResultOf(answers[0]) + ResultsIn(answers[1..])
  }

  function ResultOf(x: Answer): seq<(Caller, nat)> {
    if x.reply.ReplyResult? then [(x.caller, x.reply.result)] else []
  }

  function NilsIn(answers: seq<Answer>): seq<Caller> {
    if answers == [] then [] else NilOf(answers[0]) + NilsIn(answers[1..])
  }

  function NilOf(x: Answer): seq<Caller> {
    if x.reply.ReplyNil? then [x.caller] else []
  }

  lemma Associates<T>(a: seq<T>, b: seq<T>, c: seq<T>)
    ensures a + (b + c) == (a + b) + c
  {
  }

  lemma {:induction false} ResultsInConcat(a: seq<Answer>, b: seq<Answer>)
    ensures ResultsIn(a + b) == ResultsIn(a) + ResultsIn(b)
  {
    if a == [] {
      assert a + b == b;
    } else {
      assert (a + b)[1..] == a[1..] + b;
      ResultsInConcat(a[1..], b);
      Associates(ResultOf(a[0]), ResultsIn(a[1..]), ResultsIn(b));
    }
  }

  lemma {:induction false} NilsInConcat(a: seq<Answer>, b: seq<Answer>)
    ensures NilsIn(a + b) == NilsIn(a) + NilsIn(b)
  {
    if a == [] {
      assert a + b == b;
    } else {
      assert (a + b)[1..] == a[1..] + b;
      NilsInConcat(a[1..], b);
      Associates(NilOf(a[0]), NilsIn(a[1..]), NilsIn(b));
    }
  }

  /** Refusals, of a kind that fits the caller. */
  predicate IsRefusal(a: Answer) {
    match a.caller
    case ForIdle(_) => a.reply == ReplyClosed
    case ForRequest(r) => a.reply == if r.kind == MailboxCall then ReplyMailboxName else ReplyClosed
    case ForLogout(_) => false
  }

  predicate AreRefusals(answers: seq<Answer>) {
    forall k :: 0 <= k < |answers| ==> IsRefusal(answers[k])
  }

  lemma {:induction false} RefusalsAreNeither(answers: seq<Answer>)
    requires AreRefusals(answers)
    ensures ResultsIn(answers) == [] && NilsIn(answers) == []
  {
    if answers != [] {
      assert IsRefusal(answers[0]);
      assert AreRefusals(answers[1..]);
      RefusalsAreNeither(answers[1..]);
    }
  }

  lemma {:induction false} TurnedAwayAreRefusals(idlers: seq<IdleRequest>)
    ensures AreRefusals(TurnedAway(idlers))
  {
    if idlers != [] {
      TurnedAwayAreRefusals(idlers[1..]);
    }
  }

  lemma {:induction false} DrainedAreRefusals(queue: seq<Request>)
    ensures AreRefusals(Drained(queue))
  {
    if queue != [] {
      DrainedAreRefusals(queue[1..]);
    }
  }

  // ---- What one step says

  /** The result a connection returns in a step, and whose it is. */
  function Returned(c: Client, a: Action): seq<(Caller, nat)> {
    match a
    case Upgrade(x) => if c.idle.Some? then [(ForIdle(c.idle.value), x)] else []
    case DirectIdle(k, x) => if k < |c.idleWaiting| then [(ForIdle(c.idleWaiting[k]), x)] else []
    case Serve(k, x) => if k < |c.queue| then [(ForRequest(c.queue[k]), x)] else []
    case _ => []
  }

  /** Who is told nil: an IDLE stopped or cut short while disconnected, and whoever asks to log out. */
  function ToldNil(c: Client, a: Action): seq<Caller> {
    match a
    case Disconnected(wake, _) => if wake == StopFires then HeldIdle(c) else []
    case CallLogout(id) => if c.shutdown then [ForLogout(id)] else []
    case Logout =>
      (if c.connected then [] else HeldIdle(c))
      + (if c.logoutWaiting.Some? then [ForLogout(c.logoutWaiting.value)] else [])
    case _ => []
  }

  function HeldIdle(c: Client): seq<Caller> {
    if c.idle.Some? then [ForIdle(c.idle.value)] else []
  }

  /** The answers a step gives, in three parts. */
  ghost predicate Says(c: Client, a: Action, said: seq<Answer>)
    requires Enabled(c, a)
  {
    && ResultsIn(said) == Returned(c, a) && NilsIn(said) == ToldNil(c, a)
    && forall k :: 0 <= k < |said| ==>
      || said[k].reply.ReplyResult? || said[k].reply.ReplyNil?
      || (IsRefusal(said[k]) && Next(c, a).shutdown)
  }

  lemma OneSaid(x: Answer)
    ensures ResultsIn([x]) == if x.reply.ReplyResult? then [(x.caller, x.reply.result)] else []
    ensures NilsIn([x]) == if x.reply.ReplyNil? then [x.caller] else []
  {
    var none: seq<Answer> := [];
    assert [x][1..] == none;
    assert ResultsIn(none) == [] && NilsIn(none) == [];
  }

  lemma CallersHear(c: Client, a: Action) returns (said: seq<Answer>)
    requires Enabled(c, a) && ByCaller(a)
    ensures Next(c, a).answers == c.answers + said && Says(c, a, said)
  {
    said := [];
    if a.CallIdle? && a.sawShutdown {
      said := [Answer(ForIdle(a.idle), ReplyClosed)];
      OneSaid(said[0]);
    } else if a.Call? && a.sawShutdown {
      said := [Answer(ForRequest(a.req), if a.req.kind.MailboxCall? then ReplyMailboxName else ReplyClosed)];
      OneSaid(said[0]);
    } else if a.CallLogout? && c.shutdown {
      said := [Answer(ForLogout(a.id), ReplyNil)];
      OneSaid(said[0]);
    }
  }

  lemma DisconnectedHear(c: Client, wake: Wake, attempt: Attempt) returns (said: seq<Answer>)
    requires Shape(c) && Enabled(c, Disconnected(wake, attempt))
    ensures Next(c, Disconnected(wake, attempt)).answers == c.answers + said
    ensures Says(c, Disconnected(wake, attempt), said)
  {
    said := [];
    if wake == StopFires {
      said := [Answer(ForIdle(c.idle.value), ReplyNil)];
      OneSaid(said[0]);
    }
  }

  lemma ConnectedHear(c: Client, a: Action) returns (said: seq<Answer>)
    requires Shape(c) && Enabled(c, a) && (a.Upgrade? || a.Disconnects? || a.DirectIdle? || a.Serve?)
    ensures Next(c, a).answers == c.answers + said && Says(c, a, said)
  {
    said := [];
    if a.Upgrade? {
      said := [Answer(ForIdle(c.idle.value), ReplyResult(a.result))];
      OneSaid(said[0]);
    } else if a.DirectIdle? {
      said := [Answer(ForIdle(c.idleWaiting[a.k]), ReplyResult(a.result))];
      OneSaid(said[0]);
    } else if a.Serve? {
      said := [Answer(ForRequest(c.queue[a.k]), ReplyResult(a.result))];
      OneSaid(said[0]);
    }
  }

  /** The nils of a logout, before everyone else is sent away. */
  function LogoutNils(c: Client): seq<Answer>
    requires c.logoutWaiting.Some?
  {
    (if !c.connected && c.idle.Some? then [Answer(ForIdle(c.idle.value), ReplyNil)] else [])
    + [Answer(ForLogout(c.logoutWaiting.value), ReplyNil)]
  }

  lemma LogoutAnswers(c: Client)
    requires Shape(c) && Enabled(c, Logout)
    ensures Next(c, Logout).answers
         == c.answers + (LogoutNils(c) + (TurnedAway(c.idleWaiting) + Drained(c.queue)))
    ensures Next(c, Logout).shutdown
  {
    var d := LoggedOut(HeldIdleEnded(c));
    assert d.answers == c.answers + LogoutNils(c);
    assert d.idleWaiting == c.idleWaiting && d.queue == c.queue;
  }

  lemma NilsOfLogout(c: Client)
    requires c.logoutWaiting.Some?
    ensures ResultsIn(LogoutNils(c)) == []
    ensures NilsIn(LogoutNils(c))
         == (if !c.connected && c.idle.Some? then [ForIdle(c.idle.value)] else []) + [ForLogout(c.logoutWaiting.value)]
  {
    var last := Answer(ForLogout(c.logoutWaiting.value), ReplyNil);
    OneSaid(last);
    if !c.connected && c.idle.Some? {
      var first := Answer(ForIdle(c.idle.value), ReplyNil);
      OneSaid(first);
      ResultsInConcat([first], [last]);
      NilsInConcat([first], [last]);
    } else {
      assert LogoutNils(c) == [last];
    }
  }

  lemma LogoutHear(c: Client) returns (said: seq<Answer>)
    requires Shape(c) && Enabled(c, Logout)
    ensures Next(c, Logout).answers == c.answers + said && Says(c, Logout, said)
  {
    var nils, refusals := LogoutNils(c), TurnedAway(c.idleWaiting) + Drained(c.queue);
    LogoutAnswers(c);
    NilsOfLogout(c);
    TurnedAwayAreRefusals(c.idleWaiting);
    DrainedAreRefusals(c.queue);
    RefusalsAreNeither(refusals);
    ResultsInConcat(nils, refusals);
    NilsInConcat(nils, refusals);
    said := nils + refusals;
    forall k | 0 <= k < |said|
      ensures said[k].reply.ReplyNil? || IsRefusal(said[k])
    {
      if k >= |nils| {
        assert said[k] == refusals[k - |nils|];
      }
    }
  }

  lemma Hear(c: Client, a: Action) returns (said: seq<Answer>)
    requires Shape(c) && Enabled(c, a)
    ensures Next(c, a).answers == c.answers + said && Says(c, a, said)
  {
    if ByCaller(a) {
      said := CallersHear(c, a);
    } else if a.Disconnected? {
      said := DisconnectedHear(c, a.wake, a.attempt);
    } else if a.Logout? {
      said := LogoutHear(c);
    } else {
      said := ConnectedHear(c, a);
    }
  }

  // ---- What a run says

  lemma SaidStep(c: Client, a: Action)
    requires Shape(c) && Enabled(c, a)
    ensures ResultsIn(Next(c, a).answers) == ResultsIn(c.answers) + Returned(c, a)
    ensures NilsIn(Next(c, a).answers) == NilsIn(c.answers) + ToldNil(c, a)
  {
    var said := Hear(c, a);
    ResultsInConcat(c.answers, said);
    NilsInConcat(c.answers, said);
  }

  function ResultsSoFar(c: Client): seq<(Caller, nat)> { ResultsIn(c.answers) }
  function NilsSoFar(c: Client): seq<Caller> { NilsIn(c.answers) }

  /** The callers told a connection's result are, in order, those their calls were forwarded for, and each was told
      the very result its connection returned. */
  lemma ResultsAreTheConnections(configured: int, tr: seq<Client>, acts: seq<Action>, j: nat)
    requires IsRun(configured, tr, acts) && j <= |acts|
    ensures ResultsIn(tr[j].answers) == Paths.Gathered(Returned, tr, acts, j)
  {
    InitInv(configured);
    StepKeepsInv();
    forall c, a, d | Inv(c) && Step(c, a, d)
      ensures ResultsSoFar(d) == ResultsSoFar(c) + Returned(c, a)
    {
      SaidStep(c, a);
    }
    Paths.GathersAll(Step, Inv, ResultsSoFar, Returned, tr, acts, j);
  }

  /** Nil is told to no one but an IDLE stopped or cut short while disconnected and a caller who asks to log out. */
  lemma NilsAreForTheStopped(configured: int, tr: seq<Client>, acts: seq<Action>, j: nat)
    requires IsRun(configured, tr, acts) && j <= |acts|
    ensures NilsIn(tr[j].answers) == Paths.Gathered(ToldNil, tr, acts, j)
  {
    InitInv(configured);
    StepKeepsInv();
    forall c, a, d | Inv(c) && Step(c, a, d)
      ensures NilsSoFar(d) == NilsSoFar(c) + ToldNil(c, a)
    {
      SaidStep(c, a);
    }
    Paths.GathersAll(Step, Inv, NilsSoFar, ToldNil, tr, acts, j);
  }

  /** Every reply fits its call: the result of a connection; nil, but never to a forwarded call; or a refusal of the
      right kind, once a logout has been asked for. */
  predicate Fits(c: Client, x: Answer) {
    || x.reply.ReplyResult?
    || (x.reply.ReplyNil? && !x.caller.ForRequest?)
    || (IsRefusal(x) && c.shutdown)
  }

  predicate AllFit(c: Client) {
    forall k :: 0 <= k < |c.answers| ==> Fits(c, c.answers[k])
  }

  lemma {:induction false} NilIsListed(answers: seq<Answer>, k: nat)
    requires k < |answers| && answers[k].reply.ReplyNil?
    ensures answers[k].caller in NilsIn(answers)
  {
    if k > 0 {
      NilIsListed(answers[1..], k - 1);
    }
  }

  lemma FitsStep(c: Client, a: Action)
    requires Shape(c) && Enabled(c, a) && AllFit(c)
    ensures AllFit(Next(c, a))
  {
    var d := Next(c, a);
    var said := Hear(c, a);
    ShutdownStays(c, a);
    forall k | 0 <= k < |d.answers|
      ensures Fits(d, d.answers[k])
    {
      if k < |c.answers| {
        assert d.answers[k] == c.answers[k];
        assert Fits(c, c.answers[k]);
      } else {
        var n := k - |c.answers|;
        assert d.answers[k] == said[n];
        if said[n].reply.ReplyNil? {
          NilIsListed(said, n);
        }
      }
    }
  }

  /** In every run every reply fits. So no forwarded call, and in particular no Append, is told nil unless that is what
      its connection returned. */
  lemma EveryReplyFits(configured: int, tr: seq<Client>, acts: seq<Action>, j: nat)
    requires IsRun(configured, tr, acts) && j <= |acts|
    ensures forall k :: 0 <= k < |tr[j].answers| ==>
      var x := tr[j].answers[k];
      || x.reply.ReplyResult?
      || (x.reply == ReplyNil && !x.caller.ForRequest?)
      || (tr[j].shutdown && !x.caller.ForLogout?
          && x.reply ==
               if x.caller.ForRequest? && x.caller.req.kind == MailboxCall then ReplyMailboxName else ReplyClosed)
  {
    var fit := (c: Client) => Inv(c) && AllFit(c);
    InitInv(configured);
    forall c, a, d | fit(c) && Step(c, a, d)
      ensures fit(d)
    {
      InvKept(c, a);
      FitsStep(c, a);
    }
    Paths.Invariant(Step, fit, tr, acts, j);
    assert forall k :: 0 <= k < |tr[j].answers| ==> Fits(tr[j], tr[j].answers[k]);
  }

  lemma {:induction false} SelectIsUnanswered(queue: seq<Request>, k: nat)
    requires k < |queue| && queue[k].kind == SelectCall
    ensures queue[k] in Unanswered(queue)
  {
    if k > 0 {
      SelectIsUnanswered(queue[1..], k - 1);
    }
  }

  /** The loop has ended, and `r` was left without a reply. */
  predicate EndedWithout(c: Client, r: Option<Request>) {
    c.exited && (r.Some? ==> r.value in c.dropped)
  }

  lemma EndedStays(c: Client, a: Action, r: Option<Request>)
    requires Enabled(c, a) && EndedWithout(c, r)
    ensures ByCaller(a) && EndedWithout(Next(c, a), r)
  {
  }

  lemma LogoutEnds(c: Client, r: Option<Request>)
    requires Inv(c) && Enabled(c, Logout) && (r.Some? ==> r.value in c.queue && r.value.kind == SelectCall)
    ensures EndedWithout(Next(c, Logout), r)
  {
    if r.Some? {
      var k :| 0 <= k < |c.queue| && c.queue[k] == r.value;
      SelectIsUnanswered(c.queue, k);
    }
  }

  predicate Anything(a: Action) {
    true
  }

  lemma EndedBy(configured: int, tr: seq<Client>, acts: seq<Action>, i: nat, r: Option<Request>)
    requires IsRun(configured, tr, acts) && i < |acts| && acts[i] == Logout
    requires r.Some? ==> r.value in tr[i].queue && r.value.kind == SelectCall
    ensures EndedWithout(tr[i + 1], r)
  {
    OneStep(configured, tr, acts, i);
    LogoutEnds(tr[i], r);
  }

  lemma EndedFrom(configured: int, tr: seq<Client>, acts: seq<Action>, i: nat, j: nat, r: Option<Request>)
    requires IsRun(configured, tr, acts) && i <= j <= |acts| && EndedWithout(tr[i], r)
    ensures EndedWithout(tr[j], r)
  {
    RunInv(configured, tr, acts, i);
    StepKeepsInv();
    forall c, a, d | EndedWithout(c, r) && Step(c, a, d)
      ensures EndedWithout(d, r)
    {
      EndedStays(c, a, r);
    }
    Paths.Keeps(Step, Inv, Anything, (c: Client) => EndedWithout(c, r), tr, acts, i, j);
  }

  lemma EndedMeans(c: Client)
    requires Inv(c) && c.exited
    ensures c.conn == None && Waiting(c) == multiset{}
  {
  }

  /** A logout taken by the loop ends it for good: it does nothing more, has no connection, and nobody waits. Of those
      that were blocked the Selects are left without a reply. */
  lemma LogoutIsFinal(configured: int, tr: seq<Client>, acts: seq<Action>, i: nat, j: nat, r: Option<Request>)
    requires IsRun(configured, tr, acts) && i < j <= |acts| && acts[i] == Logout
    requires r.Some? ==> r.value in tr[i].queue && r.value.kind == SelectCall
    ensures tr[j].exited && tr[j].conn == None && Waiting(tr[j]) == multiset{}
    ensures r.Some? ==> r.value in tr[j].dropped
  {
    EndedBy(configured, tr, acts, i, r);
    EndedFrom(configured, tr, acts, i + 1, j, r);
    RunInv(configured, tr, acts, j);
    EndedMeans(tr[j]);
  }

  /** After the exit only callers take steps. */
  lemma OnlyCallersAfterExit(configured: int, tr: seq<Client>, acts: seq<Action>, j: nat)
    requires IsRun(configured, tr, acts) && j < |acts| && tr[j].exited
    ensures ByCaller(acts[j])
  {
    OneStep(configured, tr, acts, j);
    EndedStays(tr[j], acts[j], None);
  }

  predicate NotTheLogout(a: Action) {
    a != Logout
  }

  predicate LogoutPending(c: Client, id: nat) {
    c.shutdown && c.logoutWaiting == Some(id)
  }

  lemma LogoutWaits(c: Client, a: Action, id: nat)
    requires Enabled(c, a)
    ensures LogoutPending(c, id) && a != Logout ==> LogoutPending(Next(c, a), id)
    ensures a == CallLogout(id) && !c.shutdown ==> LogoutPending(Next(c, a), id)
  {
  }

  lemma LogoutAsked(configured: int, tr: seq<Client>, acts: seq<Action>, i: nat, id: nat)
    requires IsRun(configured, tr, acts) && i < |acts| && acts[i] == CallLogout(id) && !tr[i].shutdown
    ensures LogoutPending(tr[i + 1], id)
  {
    OneStep(configured, tr, acts, i);
    LogoutWaits(tr[i], acts[i], id);
  }

  lemma LogoutStays(configured: int, tr: seq<Client>, acts: seq<Action>, i: nat, j: nat, id: nat)
    requires IsRun(configured, tr, acts) && i <= j <= |acts| && LogoutPending(tr[i], id)
    requires forall k :: i <= k < j ==> acts[k] != Logout
    ensures LogoutPending(tr[j], id)
  {
    RunInv(configured, tr, acts, i);
    StepKeepsInv();
    forall c, a, d | LogoutPending(c, id) && NotTheLogout(a) && Step(c, a, d)
      ensures LogoutPending(d, id)
    {
      LogoutWaits(c, a, id);
    }
    Paths.Keeps(Step, Inv, NotTheLogout, (c: Client) => LogoutPending(c, id), tr, acts, i, j);
  }

  /** The first request to log out is neither refused nor forgotten: it waits until the loop takes it. */
  lemma LogoutIsHeard(configured: int, tr: seq<Client>, acts: seq<Action>, i: nat, j: nat, id: nat)
    requires IsRun(configured, tr, acts) && i < j <= |acts| && acts[i] == CallLogout(id) && !tr[i].shutdown
    requires forall k :: i < k < j ==> acts[k] != Logout
    ensures tr[j].shutdown && tr[j].logoutWaiting == Some(id)
  {
    LogoutAsked(configured, tr, acts, i, id);
    LogoutStays(configured, tr, acts, i + 1, j, id);
  }

  // ---- Connections and delays

  /** The connection last made and not since lost or logged out; the jitters of the failed attempts since one was last
      made, or since the start; and whether one ever was. */
  datatype Past = Past(conn: Option<nat>, failures: seq<nat>, ever: bool)

  function After(p: Past, a: Action): Past {
    match a
    case Disconnected(_, Connects(x)) => Past(Some(x), [], true)
    case Disconnected(_, Fails(jitter)) => p.(failures := p.failures + [jitter])
    case Disconnects => p.(conn := None)
    case Logout => p.(conn := None)
    case _ => p
  }

  ghost function PastOf(acts: seq<Action>, j: nat): Past
    requires j <= |acts|
  {
    Paths.Fold(After, Past(None, [], false), acts, j)
  }

  function Remembered(c: Client): Past {
    Past(c.conn, c.failures, c.made > 0)
  }

  predicate Sane(c: Client) {
    c.fault == None
  }

  lemma AttemptRemembered(c: Client, wake: Wake, attempt: Attempt)
    requires Shape(c) && Enabled(c, Disconnected(wake, attempt))
    requires Sane(Next(c, Disconnected(wake, attempt)))
    ensures Remembered(Next(c, Disconnected(wake, attempt))) == After(Remembered(c), Disconnected(wake, attempt))
  {
  }

  lemma OtherRemembered(c: Client, a: Action)
    requires Shape(c) && Enabled(c, a) && !a.Disconnected?
    ensures Remembered(Next(c, a)) == After(Remembered(c), a)
  {
  }

  lemma PastStep(c: Client, a: Action)
    requires Shape(c) && Enabled(c, a) && Sane(Next(c, a))
    ensures Sane(c) && Remembered(Next(c, a)) == After(Remembered(c), a)
  {
    FaultStays(c, a);
    if a.Disconnected? {
      AttemptRemembered(c, a.wake, a.attempt);
    } else {
      OtherRemembered(c, a);
    }
  }

  lemma FaultStays(c: Client, a: Action)
    requires Enabled(c, a)
    ensures c.fault.Some? ==> Next(c, a).fault.Some?
  {
  }

  /** In every run, short of a panic: the client has the connection last made and not since lost or logged out, and
      counts the failures since one was last made. */
  lemma ConnectionIsTheCurrent(configured: int, tr: seq<Client>, acts: seq<Action>, j: nat)
    requires IsRun(configured, tr, acts) && j <= |acts| && tr[j].fault == None
    ensures tr[j].conn == PastOf(acts, j).conn && tr[j].failures == PastOf(acts, j).failures
    ensures tr[j].made > 0 <==> PastOf(acts, j).ever
  {
    InitInv(configured);
    StepKeepsInv();
    forall c, a, d | Inv(c) && Step(c, a, d) && Sane(d)
      ensures Sane(c) && Remembered(d) == After(Remembered(c), a)
    {
      PastStep(c, a);
    }
    Paths.FoldsAll(Step, Inv, Sane, Remembered, After, tr, acts, j);
  }

  /** The delay of every state, exactly, from the attempts made so far: 2^(k-1) seconds after k failures from the start,
      2^k after k failures since a connection, and the jitter of the last failure; cut off at the maximum. */
  lemma DelayFollowsTheFailures(configured: int, tr: seq<Client>, acts: seq<Action>, j: nat)
    requires IsRun(configured, tr, acts) && j <= |acts| && tr[j].fault == None
    ensures var f, max := PastOf(acts, j).failures, MaxDelay(configured);
      tr[j].delay ==
        if PastOf(acts, j).ever then Capped(|f|, if f == [] then 0 else f[|f| - 1], max)
        else if f == [] then 0
        else Capped(|f| - 1, f[|f| - 1], max)
  {
    RunInv(configured, tr, acts, j);
    MaxDelayFixed(configured, tr, acts, j);
    ConnectionIsTheCurrent(configured, tr, acts, j);
    BackoffClosedForm(tr[j].failures, configured);
  }

  // ---- IDLEs on connections, and stopping one

  /** The IDLE a step runs on a connection, and the stop channel and options its caller asked for. */
  function GivenBy(c: Client, a: Action): seq<(IdleRequest, Option<nat>, nat)> {
    match a
    case Upgrade(_) => if c.idle.Some? then [(c.idle.value, c.idle.value.stop, c.idle.value.opts)] else []
    case DirectIdle(k, _) =>
      if k < |c.idleWaiting| then [(c.idleWaiting[k], c.idleWaiting[k].stop, c.idleWaiting[k].opts)] else []
    case _ => []
  }

  function HandedOf(c: Client): seq<(IdleRequest, Option<nat>, nat)> { c.handed }

  lemma GivenStep(c: Client, a: Action)
    requires Shape(c) && Enabled(c, a)
    ensures Next(c, a).handed == c.handed + GivenBy(c, a)
  {
  }

  /** The IDLEs run on connections are those upgraded and those taken while connected, in order, each with its caller's
      own stop channel and options. */
  lemma IdlesRunAreThoseGiven(configured: int, tr: seq<Client>, acts: seq<Action>, j: nat)
    requires IsRun(configured, tr, acts) && j <= |acts|
    ensures tr[j].handed == Paths.Gathered(GivenBy, tr, acts, j)
  {
    InitInv(configured);
    StepKeepsInv();
    forall c, a, d | Inv(c) && Step(c, a, d)
      ensures HandedOf(d) == HandedOf(c) + GivenBy(c, a)
    {
      GivenStep(c, a);
    }
    Paths.GathersAll(Step, Inv, HandedOf, GivenBy, tr, acts, j);
  }

  lemma ClosedStays(c: Client, a: Action, stop: nat)
    requires Enabled(c, a) && (stop in c.closed || a == CloseStop(stop))
    ensures stop in Next(c, a).closed
  {
  }

  lemma ClosedBy(configured: int, tr: seq<Client>, acts: seq<Action>, i: nat, stop: nat)
    requires IsRun(configured, tr, acts) && i < |acts| && acts[i] == CloseStop(stop)
    ensures stop in tr[i + 1].closed
  {
    OneStep(configured, tr, acts, i);
    ClosedStays(tr[i], acts[i], stop);
  }

  lemma StopIsClosed(configured: int, tr: seq<Client>, acts: seq<Action>, i: nat, j: nat, stop: nat)
    requires IsRun(configured, tr, acts) && i < j <= |acts| && acts[i] == CloseStop(stop)
    ensures stop in tr[j].closed
  {
    ClosedBy(configured, tr, acts, i, stop);
    RunInv(configured, tr, acts, i + 1);
    StepKeepsInv();
    forall c: Client, a: Action, d: Client | stop in c.closed && Step(c, a, d)
      ensures stop in d.closed
    {
      ClosedStays(c, a, stop);
    }
    Paths.Keeps(Step, Inv, Anything, (c: Client) => stop in c.closed, tr, acts, i + 1, j);
  }

  /** A caller that has closed its stop channel, no matter when, can have its held IDLE answered with no error before
      any connection is made. */
  lemma ClosedStopEndsHeldIdle(configured: int, tr: seq<Client>, acts: seq<Action>, i: nat, j: nat, attempt: Attempt)
    requires IsRun(configured, tr, acts) && i < j <= |acts|
    requires attempt.Fails? ==> attempt.jitter < JITTER
    requires tr[j].fault == None && !tr[j].exited && !tr[j].connected && tr[j].idle.Some?
    requires tr[j].idle.value.stop.Some? && acts[i] == CloseStop(tr[j].idle.value.stop.value)
    ensures Enabled(tr[j], Disconnected(StopFires, attempt))
    ensures var d := Next(tr[j], Disconnected(StopFires, attempt));
      d.idle == None && d.stopIdle == None
      && d.answers == tr[j].answers + [Answer(ForIdle(tr[j].idle.value), ReplyNil)]
  {
    StopIsClosed(configured, tr, acts, i, j, tr[j].idle.value.stop.value);
    HeldIdleStops(configured, tr, acts, j, attempt);
  }
}
