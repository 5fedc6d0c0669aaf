/** The reconnecting client: its loop, the calls blocked on it, and the connections it opens, as a step relation. */
module ClientSpec {
  import opened Imap
  import opened Backoff

  datatype Kind = SelectCall | FetchCall | ExpungeCall | StoreCall | AppendCall | MailboxCall

  /** Calls are told apart by an id, one per call made. */
  datatype Request = Request(id: nat, kind: Kind)

  /** An IDLE call: the caller's stop channel, which may be nil, and its options. */
  datatype IdleRequest = IdleRequest(id: nat, stop: Option<nat>, opts: nat)

  /** A reply: nil, "connection closed", the bare mailbox name, or whatever the connection returned. */
  datatype Reply = ReplyNil | ReplyClosed | ReplyMailboxName | ReplyResult(result: nat)

  /** Whose call it was: of Idle, of one of the methods that are forwarded, or of Logout. */
  datatype Caller = ForIdle(idle: IdleRequest) | ForRequest(req: Request) | ForLogout(id: nat)

  datatype Answer = Answer(caller: Caller, reply: Reply)

  datatype Fault = NotInIdle | AlreadyInIdle | NilConnection

  /** `idleWaiting`, `queue` and `logoutWaiting` are the callers blocked on the client's channels. `called`, `answers`,
      `dropped`, `handed`, `made`, `lost` and `loggedOut` are history: the callers of all calls, replies given, Selects
      dropped at exit, IDLEs run on a connection with the stop channel and options it was given, and connections
      made, lost and logged out; `failures` are the jitters of the failed attempts since the last connection, or
      since the start. */
  datatype Client = Client(
    connected: bool,
    conn: Option<nat>,
    delay: nat,
    maxDelay: nat,
    idle: Option<IdleRequest>,
    stopIdle: Option<nat>,
    shutdown: bool,
    exited: bool,
    fault: Option<Fault>,
    idleWaiting: seq<IdleRequest>,
    queue: seq<Request>,
    logoutWaiting: Option<nat>,
    closed: set<nat>,
    called: multiset<Caller>,
    answers: seq<Answer>,
    dropped: seq<Request>,
    handed: seq<(IdleRequest, Option<nat>, nat)>,
    made: nat,
    lost: nat,
    loggedOut: nat,
    failures: seq<nat>)

  datatype Wake = StopFires | TakeIdle(k: nat) | DelayOver

  datatype Attempt = Fails(jitter: nat) | Connects(conn: nat)

  datatype Action =
    // callers
    | CallIdle(idle: IdleRequest, sawShutdown: bool)
    | Call(req: Request, sawShutdown: bool)
    | CallLogout(id: nat)
    | CloseStop(stop: nat)
    // the loop
    | Disconnected(wake: Wake, attempt: Attempt)
    | Upgrade(result: nat)
    | Disconnects
    | DirectIdle(k: nat, result: nat)
    | Serve(k: nat, result: nat)
    | Logout

  /** What may happen; any number of callers may be inside Idle at once. */
  predicate Enabled(c: Client, a: Action) {
    match a
    case CallIdle(_, saw) => if saw then c.shutdown else !c.exited
    case Call(_, saw) => if saw then c.shutdown else !c.exited
    case CallLogout(_) => true
    case CloseStop(_) => true
    case Disconnected(wake, attempt) =>
      && !c.exited && c.fault == None && !c.connected
      && (attempt.Fails? ==> attempt.jitter < JITTER)
      && (match wake
          case StopFires => c.stopIdle.Some? && c.stopIdle.value in c.closed
          case TakeIdle(k) => k < |c.idleWaiting|
          case DelayOver => true)
    case Logout => !c.exited && c.fault == None && c.logoutWaiting.Some? && (c.connected ==> c.idle == None)
    case Upgrade(_) => !c.exited && c.fault == None && c.connected && c.idle.Some?
    case Disconnects => !c.exited && c.fault == None && c.connected && c.idle == None
    case DirectIdle(k, _) => !c.exited && c.fault == None && c.connected && c.idle == None && k < |c.idleWaiting|
    case Serve(k, _) => !c.exited && c.fault == None && c.connected && c.idle == None && k < |c.queue|
  }

  function Answered(c: Client, caller: Caller, reply: Reply): Client {
    c.(answers := c.answers + [Answer(caller, reply)])
  }

  function Without<T>(s: seq<T>, k: nat): seq<T>
    requires k < |s|
  {
    s[..k] + s[k + 1..]
  }

  /** The select of the disconnected state, but for a logout. */
  function Woken(c: Client, wake: Wake): Client
    requires wake.TakeIdle? ==> wake.k < |c.idleWaiting|
  {
    match wake
    case StopFires =>
      if c.idle == None then c.(fault := Some(NotInIdle))
      else Answered(c, ForIdle(c.idle.value), ReplyNil).(idle := None, stopIdle := None)
    case TakeIdle(k) =>
      if c.idle.Some? then c.(fault := Some(AlreadyInIdle))
      else c.(idle := Some(c.idleWaiting[k]), stopIdle := c.idleWaiting[k].stop,
          idleWaiting := Without(c.idleWaiting, k))
    case DelayOver => c
  }

  function Attempted(c: Client, attempt: Attempt): Client {
    match attempt
    case Fails(jitter) => c.(delay := NextDelay(c.delay, jitter, c.maxDelay), failures := c.failures + [jitter])
    case Connects(conn) =>
      c.(conn := Some(conn), connected := true, delay := SECOND, made := c.made + 1, failures := [])
  }

  /** Draining: every blocked caller is answered, a Select apart. */
  function DrainReply(kind: Kind): Option<Reply> {
    match kind
    case SelectCall => None
    case MailboxCall => Some(ReplyMailboxName)
    case _ => Some(ReplyClosed)
  }

  function Drained(queue: seq<Request>): seq<Answer> {
    if queue == [] then []
    else (match DrainReply(queue[0].kind)
          case None => []
          case Some(r) => [Answer(ForRequest(queue[0]), r)]) + Drained(queue[1..])
  }

  function Unanswered(queue: seq<Request>): seq<Request> {
    if queue == [] then []
    else (if DrainReply(queue[0].kind) == None then [queue[0]] else []) + Unanswered(queue[1..])
  }

  /** A logout accepted while disconnected ends an IDLE being held. */
  function HeldIdleEnded(c: Client): Client {
    if !c.connected && c.idle.Some?
    then Answered(c, ForIdle(c.idle.value), ReplyNil).(idle := None, stopIdle := None) else c
  }

  /** The logout is answered and the connection, if any, logged out. */
  function LoggedOut(c: Client): Client
    requires c.logoutWaiting.Some?
  {
    Answered(c, ForLogout(c.logoutWaiting.value), ReplyNil).(
      logoutWaiting := None, shutdown := true,
      loggedOut := if c.conn.Some? then c.loggedOut + 1 else c.loggedOut, conn := None)
  }

  function TurnedAway(idlers: seq<IdleRequest>): seq<Answer> {
    if idlers == [] then [] else [Answer(ForIdle(idlers[0]), ReplyClosed)] + TurnedAway(idlers[1..])
  }

  function IdlersSentAway(c: Client): Client {
    c.(answers := c.answers + TurnedAway(c.idleWaiting), idleWaiting := [])
  }

  /** Whoever is still blocked on a channel is sent away. */
  function SentAway(c: Client): Client {
    var d := IdlersSentAway(c);
    d.(answers := d.answers + Drained(d.queue), dropped := d.dropped + Unanswered(d.queue), queue := [], exited := true)
  }

  /** From the acceptance of a logout to the end of the loop. */
  function Finished(c: Client): Client
    requires c.logoutWaiting.Some?
  {
    SentAway(LoggedOut(HeldIdleEnded(c)))
  }

  /** Requests go to the connection; without one that is a nil dereference. */
  function OnConnection(c: Client, next: Client): Client {
    if c.conn == None then c.(fault := Some(NilConnection)) else next
  }

  function Next(c: Client, a: Action): Client
    requires Enabled(c, a)
  {
    match a
    case CallIdle(r, saw) =>
      var d := c.(called := c.called + multiset{ForIdle(r)});
      if saw then Answered(d, ForIdle(r), ReplyClosed) else d.(idleWaiting := d.idleWaiting + [r])
    case Call(r, saw) =>
      var d := c.(called := c.called + multiset{ForRequest(r)});
      if saw then Answered(d, ForRequest(r), if r.kind.MailboxCall? then ReplyMailboxName else ReplyClosed)
      else d.(queue := d.queue + [r])
    case CallLogout(id) =>
      var d := c.(called := c.called + multiset{ForLogout(id)}, shutdown := true);
      if c.shutdown then Answered(d, ForLogout(id), ReplyNil) else d.(logoutWaiting := Some(id))
    case CloseStop(stop) => c.(closed := c.closed + {stop})
    case Disconnected(wake, attempt) =>
      var d := Woken(c, wake);
      if d.fault.Some? then d else Attempted(d, attempt)
    case Upgrade(result) =>
      var r := c.idle.value;
      OnConnection(c, Answered(c, ForIdle(r), ReplyResult(result)).(
        idle := None, stopIdle := None, handed := c.handed + [(r, c.stopIdle, r.opts)]))
    case Disconnects => OnConnection(c, c.(conn := None, connected := false, lost := c.lost + 1))
    case DirectIdle(k, result) =>
      var r := c.idleWaiting[k];
      OnConnection(c, Answered(c, ForIdle(r), ReplyResult(result)).(
        idleWaiting := Without(c.idleWaiting, k), handed := c.handed + [(r, r.stop, r.opts)]))
    case Serve(k, result) =>
      OnConnection(c, c.(answers := c.answers + [Answer(ForRequest(c.queue[k]), ReplyResult(result))],
                         queue := Without(c.queue, k)))
    case Logout => if c.connected then OnConnection(c, Finished(c)) else Finished(c)
  }

  function FreshClient(configured: int): Client {
    Client(false, None, 0, MaxDelay(configured), None, None, false, false, None, [], [], None, {},
           multiset{}, [], [], [], 0, 0, 0, [])
  }

  // ---- The invariant

  function Callers<T>(xs: seq<T>, of: T -> Caller): multiset<Caller> {
    if xs == [] then multiset{} else multiset{of(xs[0])} + Callers(xs[1..], of)
  }

  function WhoseAnswer(a: Answer): Caller { a.caller }
  function WhoseRequest(r: Request): Caller { ForRequest(r) }
  function WhoseIdle(r: IdleRequest): Caller { ForIdle(r) }

  function AnsweredCallers(answers: seq<Answer>): multiset<Caller> {
    Callers(answers, WhoseAnswer)
  }

  function RequestCallers(queue: seq<Request>): multiset<Caller> {
    Callers(queue, WhoseRequest)
  }

  function IdleCallers(idlers: seq<IdleRequest>): multiset<Caller> {
    Callers(idlers, WhoseIdle)
  }

  function HeldCaller(r: Option<IdleRequest>): multiset<Caller> {
    if r.Some? then multiset{ForIdle(r.value)} else multiset{}
  }

  function LogoutCaller(id: Option<nat>): multiset<Caller> {
    if id.Some? then multiset{ForLogout(id.value)} else multiset{}
  }

  /** Calls accepted or blocked and not answered yet. */
  function Waiting(c: Client): multiset<Caller> {
    RequestCallers(c.queue) + IdleCallers(c.idleWaiting) + HeldCaller(c.idle) + LogoutCaller(c.logoutWaiting)
  }

  /** Connected means there is a connection, and only then; an IDLE is held with its own stop channel; the one fault
      there can be is a second IDLE taken while one is held; and nobody is left at the exit. */
  predicate Shape(c: Client) {
    && (c.fault == None || c.fault == Some(AlreadyInIdle))
    && (c.exited ==> c.fault == None && c.conn == None && c.idle == None && c.idleWaiting == []
                     && c.logoutWaiting == None && c.queue == [] && c.shutdown)
    && (!c.exited ==> (c.conn.Some? <==> c.connected))
    && c.stopIdle == (if c.idle.Some? then c.idle.value.stop else None)
    && (c.logoutWaiting.Some? ==> c.shutdown)
    && SECOND <= c.maxDelay && c.delay <= c.maxDelay
  }

  /** Connections made are lost, logged out, or the current one; at most one is ever logged out, at the exit. */
  predicate Connections(c: Client) {
    && c.made == c.lost + c.loggedOut + (if c.conn.Some? then 1 else 0)
    && c.loggedOut <= (if c.exited then 1 else 0)
  }

  /** Every IDLE run on a connection got its caller's own stop channel and options. */
  predicate Faithful(c: Client) {
    forall i :: 0 <= i < |c.handed| ==> c.handed[i].1 == c.handed[i].0.stop && c.handed[i].2 == c.handed[i].0.opts
  }

  /** The delay is what the failures since the last connection, or since the start, make it. */
  predicate Paced(c: Client) {
    && (forall i :: 0 <= i < |c.failures| ==> c.failures[i] < JITTER)
    && c.delay == AfterFailures(if c.made == 0 then 0 else SECOND, c.failures, c.maxDelay)
  }

  function Accounted(c: Client): multiset<Caller> {
    AnsweredCallers(c.answers) + Waiting(c) + RequestCallers(c.dropped)
  }

  /** Every call is, exactly once, answered, or still waiting, or a Select dropped at the exit. */
  predicate Balanced(c: Client) {
    c.called == Accounted(c)
  }

  predicate OnlySelectsDropped(c: Client) {
    && (c.dropped != [] ==> c.exited)
    && forall i :: 0 <= i < |c.dropped| ==> c.dropped[i].kind == SelectCall
  }

  predicate Sound(c: Client) {
    Shape(c) && Connections(c) && Faithful(c) && Paced(c) && OnlySelectsDropped(c)
  }

  predicate Inv(c: Client) {
    Sound(c) && Balanced(c)
  }

  lemma {:induction false} CallersConcat<T>(a: seq<T>, b: seq<T>, of: T -> Caller)
    ensures Callers(a + b, of) == Callers(a, of) + Callers(b, of)
  {
    if a == [] {
      assert a + b == b;
    } else {
      assert (a + b)[1..] == a[1..] + b;
      CallersConcat(a[1..], b, of);
    }
  }

  lemma CallersSnoc<T>(a: seq<T>, x: T, of: T -> Caller)
    ensures Callers(a + [x], of) == Callers(a, of) + multiset{of(x)}
  {
    CallersConcat(a, [x], of);
    assert Callers([x], of) == multiset{of(x)};
  }

  lemma MovedLast(a: multiset<Caller>, b: multiset<Caller>, x: multiset<Caller>)
    ensures a + (x + b) == (a + b) + x
  {
  }

  lemma CallersWithout<T>(xs: seq<T>, k: nat, of: T -> Caller)
    requires k < |xs|
    ensures Callers(xs, of) == Callers(Without(xs, k), of) + multiset{of(xs[k])}
  {
    var before, rest, after := xs[..k], xs[k..], xs[k + 1..];
    assert xs == before + rest;
    CallersConcat(before, rest, of);
    assert rest[1..] == after && rest[0] == xs[k];
    CallersConcat(before, after, of);
    MovedLast(Callers(before, of), Callers(after, of), multiset{of(xs[k])});
  }

  /** Every caller blocked in Idle is turned away, once. */
  lemma {:induction false} TurningAwayAccounts(idlers: seq<IdleRequest>)
    ensures IdleCallers(idlers) == AnsweredCallers(TurnedAway(idlers))
  {
    if idlers != [] {
      TurningAwayAccounts(idlers[1..]);
      assert TurnedAway(idlers)[1..] == TurnedAway(idlers[1..]);
    }
  }

  /** Draining answers or drops each blocked call, once. */
  lemma {:induction false} DrainAccounts(queue: seq<Request>)
    ensures RequestCallers(queue) == AnsweredCallers(Drained(queue)) + RequestCallers(Unanswered(queue))
  {
    if queue != [] {
      DrainAccounts(queue[1..]);
      var head := match DrainReply(queue[0].kind) case None => [] case Some(r) => [Answer(ForRequest(queue[0]), r)];
      CallersConcat(head, Drained(queue[1..]), WhoseAnswer);
      var unanswered := if DrainReply(queue[0].kind) == None then [queue[0]] else [];
      CallersConcat(unanswered, Unanswered(queue[1..]), WhoseRequest);
    }
  }

  lemma WokenSound(c: Client, wake: Wake, attempt: Attempt)
    requires Sound(c) && Enabled(c, Disconnected(wake, attempt))
    ensures Sound(Woken(c, wake)) && !Woken(c, wake).connected && !Woken(c, wake).exited
    ensures Woken(c, wake).fault.Some? <==> wake.TakeIdle? && c.idle.Some?
  {
  }

  lemma AttemptedSound(c: Client, attempt: Attempt)
    requires Sound(c) && !c.connected && !c.exited
    requires attempt.Fails? ==> attempt.jitter < JITTER
    ensures Sound(Attempted(c, attempt))
  {
    if attempt.Fails? {
      AfterFailuresSnoc(if c.made == 0 then 0 else SECOND, c.failures, attempt.jitter, c.maxDelay);
    }
  }

  lemma CallsSound(c: Client, a: Action)
    requires Sound(c) && Enabled(c, a) && (a.CallIdle? || a.Call? || a.CallLogout? || a.CloseStop?)
    ensures Sound(Next(c, a))
  {
  }

  lemma IdleRunSound(c: Client, a: Action)
    requires Sound(c) && Enabled(c, a) && (a.Upgrade? || a.DirectIdle?)
    ensures Sound(Next(c, a))
  {
  }

  lemma ServiceSound(c: Client, a: Action)
    requires Sound(c) && Enabled(c, a) && (a.Disconnects? || a.Serve?)
    ensures Sound(Next(c, a))
  {
  }

  lemma {:induction false} UnansweredAreSelects(queue: seq<Request>)
    ensures forall i :: 0 <= i < |Unanswered(queue)| ==> Unanswered(queue)[i].kind == SelectCall
  {
    if queue != [] {
      UnansweredAreSelects(queue[1..]);
    }
  }

  lemma FinishedSound(c: Client)
    requires Sound(c) && Enabled(c, Logout)
    ensures Sound(Next(c, Logout))
  {
    UnansweredAreSelects(c.queue);
  }

  // ---- Balance, one building block at a time

  lemma ReplyBalances(c: Client, before: seq<Answer>, caller: Caller, reply: Reply, waiting: multiset<Caller>)
    requires Waiting(c) + multiset{caller} == waiting && c.answers == before + [Answer(caller, reply)]
    ensures Accounted(c) == AnsweredCallers(before) + waiting + RequestCallers(c.dropped)
  {
    CallersSnoc(before, Answer(caller, reply), WhoseAnswer);
  }

  lemma Regrouped(q: multiset<Caller>, i: multiset<Caller>, x: multiset<Caller>, l: multiset<Caller>)
    ensures q + (i + x) + multiset{} + l == q + i + x + l
  {
  }

  lemma WokenBalances(c: Client, wake: Wake)
    requires Shape(c) && (wake.TakeIdle? ==> wake.k < |c.idleWaiting|)
    requires wake == StopFires ==> c.stopIdle.Some?
    ensures Accounted(Woken(c, wake)) == Accounted(c)
  {
    if wake == StopFires {
      ReplyBalances(Woken(c, wake), c.answers, ForIdle(c.idle.value), ReplyNil, Waiting(c));
    } else if wake.TakeIdle? && c.idle == None {
      TakenBalances(c, wake.k);
    }
  }

  lemma TakenBalances(c: Client, k: nat)
    requires k < |c.idleWaiting| && c.idle == None
    ensures Waiting(Woken(c, TakeIdle(k))) == Waiting(c)
  {
    var d := Woken(c, TakeIdle(k));
    CallersWithout(c.idleWaiting, k, WhoseIdle);
    assert HeldCaller(d.idle) == multiset{ForIdle(c.idleWaiting[k])} && HeldCaller(c.idle) == multiset{};
    Regrouped(RequestCallers(c.queue), IdleCallers(d.idleWaiting), HeldCaller(d.idle), LogoutCaller(c.logoutWaiting));
  }

  lemma HeldIdleEndedBalances(c: Client)
    ensures Accounted(HeldIdleEnded(c)) == Accounted(c)
  {
    if !c.connected && c.idle.Some? {
      ReplyBalances(HeldIdleEnded(c), c.answers, ForIdle(c.idle.value), ReplyNil, Waiting(c));
    }
  }

  lemma LoggedOutBalances(c: Client)
    requires c.logoutWaiting.Some?
    ensures Accounted(LoggedOut(c)) == Accounted(c)
  {
    ReplyBalances(LoggedOut(c), c.answers, ForLogout(c.logoutWaiting.value), ReplyNil, Waiting(c));
  }

  lemma IdlersBalance(a: multiset<Caller>, q: multiset<Caller>, i: multiset<Caller>, h: multiset<Caller>,
      l: multiset<Caller>, d: multiset<Caller>)
    ensures (a + i) + (q + multiset{} + h + l) + d == a + (q + i + h + l) + d
  {
  }

  lemma IdlersSentAwayBalances(c: Client)
    ensures Accounted(IdlersSentAway(c)) == Accounted(c)
  {
    CallersConcat(c.answers, TurnedAway(c.idleWaiting), WhoseAnswer);
    TurningAwayAccounts(c.idleWaiting);
    IdlersBalance(AnsweredCallers(c.answers), RequestCallers(c.queue), IdleCallers(c.idleWaiting), HeldCaller(c.idle),
                  LogoutCaller(c.logoutWaiting), RequestCallers(c.dropped));
  }

  /** Answers `a` and waiting `q + w` become answers `a + d` and waiting `w`, with `x` dropped. */
  lemma DrainBalances(a: multiset<Caller>, d: multiset<Caller>, q: multiset<Caller>, x: multiset<Caller>,
      w: multiset<Caller>, dropped: multiset<Caller>)
    requires q == d + x
    ensures (a + d) + w + (dropped + x) == a + (q + w) + dropped
  {
  }

  lemma Apart(q: multiset<Caller>, i: multiset<Caller>, h: multiset<Caller>, l: multiset<Caller>)
    ensures q + i + h + l == q + (multiset{} + i + h + l)
  {
  }

  lemma SentAwayBalances(c: Client)
    ensures Accounted(SentAway(c)) == Accounted(c)
  {
    IdlersSentAwayBalances(c);
    var d, q := IdlersSentAway(c), IdlersSentAway(c).queue;
    CallersConcat(d.answers, Drained(q), WhoseAnswer);
    DrainAccounts(q);
    Apart(RequestCallers(q), IdleCallers(d.idleWaiting), HeldCaller(d.idle), LogoutCaller(d.logoutWaiting));
    CallersConcat(d.dropped, Unanswered(q), WhoseRequest);
    DrainBalances(AnsweredCallers(d.answers), AnsweredCallers(Drained(q)), RequestCallers(q),
                  RequestCallers(Unanswered(q)), Waiting(SentAway(c)), RequestCallers(d.dropped));
  }

  lemma OneMore(a: multiset<Caller>, w: multiset<Caller>, d: multiset<Caller>, x: multiset<Caller>)
    ensures (a + x) + w + d == (a + w + d) + x
    ensures a + (w + x) + d == (a + w + d) + x
  {
  }

  lemma RefusedBalances(c: Client, d: Client, caller: Caller, reply: Reply)
    requires Balanced(c)
    requires d == c.(called := c.called + multiset{caller}, answers := c.answers + [Answer(caller, reply)])
    ensures Balanced(d)
  {
    CallersSnoc(c.answers, Answer(caller, reply), WhoseAnswer);
    assert Waiting(d) == Waiting(c);
    OneMore(AnsweredCallers(c.answers), Waiting(c), RequestCallers(c.dropped), multiset{caller});
  }

  lemma CalledBalances(c: Client, d: Client, caller: Caller)
    requires Balanced(c) && d.called == c.called + multiset{caller} && d.answers == c.answers && d.dropped == c.dropped
    requires Waiting(d) == Waiting(c) + multiset{caller}
    ensures Balanced(d)
  {
    OneMore(AnsweredCallers(c.answers), Waiting(c), RequestCallers(c.dropped), multiset{caller});
  }

  lemma Queued(q: multiset<Caller>, i: multiset<Caller>, h: multiset<Caller>, l: multiset<Caller>, x: multiset<Caller>)
    ensures (q + x) + i + h + l == (q + i + h + l) + x
    ensures q + (i + x) + h + l == (q + i + h + l) + x
  {
  }

  lemma QueuedIn(c: Client, x: multiset<Caller>)
    ensures (RequestCallers(c.queue) + x) + IdleCallers(c.idleWaiting) + HeldCaller(c.idle)
        + LogoutCaller(c.logoutWaiting) == Waiting(c) + x
    ensures RequestCallers(c.queue) + (IdleCallers(c.idleWaiting) + x) + HeldCaller(c.idle)
        + LogoutCaller(c.logoutWaiting) == Waiting(c) + x
  {
    Queued(RequestCallers(c.queue), IdleCallers(c.idleWaiting), HeldCaller(c.idle), LogoutCaller(c.logoutWaiting), x);
  }

  lemma CallIdleBalances(c: Client, r: IdleRequest, saw: bool)
    requires Inv(c) && Enabled(c, CallIdle(r, saw))
    ensures Balanced(Next(c, CallIdle(r, saw)))
  {
    if saw {
      RefusedBalances(c, Next(c, CallIdle(r, saw)), ForIdle(r), ReplyClosed);
    } else {
      CallersSnoc(c.idleWaiting, r, WhoseIdle);
      QueuedIn(c, multiset{ForIdle(r)});
      CalledBalances(c, Next(c, CallIdle(r, saw)), ForIdle(r));
    }
  }

  lemma CallBalances(c: Client, r: Request, saw: bool)
    requires Inv(c) && Enabled(c, Call(r, saw))
    ensures Balanced(Next(c, Call(r, saw)))
  {
    var d := Next(c, Call(r, saw));
    if saw {
      RefusedBalances(c, d, ForRequest(r), if r.kind.MailboxCall? then ReplyMailboxName else ReplyClosed);
    } else {
      CallersSnoc(c.queue, r, WhoseRequest);
      QueuedIn(c, multiset{ForRequest(r)});
      CalledBalances(c, d, ForRequest(r));
    }
  }

  lemma CallLogoutBalances(c: Client, id: nat)
    requires Inv(c)
    ensures Balanced(Next(c, CallLogout(id)))
  {
    var d := Next(c, CallLogout(id));
    if c.shutdown {
      assert d == c.(called := c.called + multiset{ForLogout(id)},
                     answers := c.answers + [Answer(ForLogout(id), ReplyNil)]);
      RefusedBalances(c, d, ForLogout(id), ReplyNil);
    } else {
      assert c.logoutWaiting == None;
      CalledBalances(c, d, ForLogout(id));
    }
  }

  lemma UpgradeBalances(c: Client, result: nat)
    requires Inv(c) && Enabled(c, Upgrade(result))
    ensures Balanced(Next(c, Upgrade(result)))
  {
    ReplyBalances(Next(c, Upgrade(result)), c.answers, ForIdle(c.idle.value), ReplyResult(result), Waiting(c));
  }

  lemma DirectIdleBalances(c: Client, k: nat, result: nat)
    requires Inv(c) && Enabled(c, DirectIdle(k, result))
    ensures Balanced(Next(c, DirectIdle(k, result)))
  {
    var d := Next(c, DirectIdle(k, result));
    CallersWithout(c.idleWaiting, k, WhoseIdle);
    QueuedIn(d, multiset{ForIdle(c.idleWaiting[k])});
    ReplyBalances(d, c.answers, ForIdle(c.idleWaiting[k]), ReplyResult(result), Waiting(c));
  }

  lemma ServeBalances(c: Client, k: nat, result: nat)
    requires Inv(c) && Enabled(c, Serve(k, result))
    ensures Balanced(Next(c, Serve(k, result)))
  {
    var d := Next(c, Serve(k, result));
    CallersWithout(c.queue, k, WhoseRequest);
    QueuedIn(d, multiset{ForRequest(c.queue[k])});
    ReplyBalances(d, c.answers, ForRequest(c.queue[k]), ReplyResult(result), Waiting(c));
  }

  lemma FinishedBalances(c: Client)
    requires c.logoutWaiting.Some?
    ensures Accounted(Finished(c)) == Accounted(c)
  {
    HeldIdleEndedBalances(c);
    LoggedOutBalances(HeldIdleEnded(c));
    SentAwayBalances(LoggedOut(HeldIdleEnded(c)));
  }

  lemma CallsKeepBalance(c: Client, a: Action)
    requires Inv(c) && Enabled(c, a) && (a.CallIdle? || a.Call? || a.CallLogout? || a.CloseStop?)
    ensures Balanced(Next(c, a))
  {
    if a.CallIdle? {
      CallIdleBalances(c, a.idle, a.sawShutdown);
    } else if a.Call? {
      CallBalances(c, a.req, a.sawShutdown);
    } else if a.CallLogout? {
      CallLogoutBalances(c, a.id);
    }
  }

  lemma DisconnectedKept(c: Client, wake: Wake, attempt: Attempt)
    requires Inv(c) && Enabled(c, Disconnected(wake, attempt))
    ensures Inv(Next(c, Disconnected(wake, attempt)))
  {
    WokenSound(c, wake, attempt);
    WokenBalances(c, wake);
    if Woken(c, wake).fault == None {
      AttemptedSound(Woken(c, wake), attempt);
    }
  }

  lemma ConnectedKept(c: Client, a: Action)
    requires Inv(c) && Enabled(c, a) && (a.Upgrade? || a.DirectIdle? || a.Disconnects? || a.Serve?)
    ensures Inv(Next(c, a))
  {
    if a.Upgrade? {
      IdleRunSound(c, a);
      UpgradeBalances(c, a.result);
    } else if a.DirectIdle? {
      IdleRunSound(c, a);
      DirectIdleBalances(c, a.k, a.result);
    } else {
      ServiceSound(c, a);
      if a.Serve? {
        ServeBalances(c, a.k, a.result);
      }
    }
  }

  lemma LogoutKept(c: Client)
    requires Inv(c) && Enabled(c, Logout)
    ensures Inv(Next(c, Logout))
  {
    FinishedSound(c);
    FinishedBalances(c);
  }

  lemma InvKept(c: Client, a: Action)
    requires Inv(c) && Enabled(c, a)
    ensures Inv(Next(c, a))
  {
    if a.Disconnected? {
      DisconnectedKept(c, a.wake, a.attempt);
    } else if a.Logout? {
      LogoutKept(c);
    } else if a.CallIdle? || a.Call? || a.CallLogout? || a.CloseStop? {
      CallsSound(c, a);
      CallsKeepBalance(c, a);
    } else {
      ConnectedKept(c, a);
    }
  }

  lemma InitInv(configured: int)
    ensures Inv(FreshClient(configured))
  {
  }
}
