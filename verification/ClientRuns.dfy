/** What holds in every state of every run of the reconnecting client. */
module ClientRuns {
  import opened Imap
  import opened Numbers
  import opened Backoff
  import opened ClientSpec
  import Paths

  ghost predicate Step(c: Client, a: Action, d: Client) {
    Enabled(c, a) && d == Next(c, a)
  }

  ghost predicate IsRun(configured: int, tr: seq<Client>, acts: seq<Action>) {
    Paths.IsPath(Step, tr, acts) && tr[0] == FreshClient(configured)
  }

  lemma StepKeepsInv()
    ensures Paths.Preserves(Step, Inv)
  {
    forall c, a, d | Inv(c) && Step(c, a, d)
      ensures Inv(d)
    {
      InvKept(c, a);
    }
  }

  lemma RunInv(configured: int, tr: seq<Client>, acts: seq<Action>, j: nat)
    requires IsRun(configured, tr, acts) && j <= |acts|
    ensures Inv(tr[j])
  {
    InitInv(configured);
    StepKeepsInv();
    Paths.Invariant(Step, Inv, tr, acts, j);
  }

  /** Whatever its callers do, no request meets a missing connection, and "not in idle" is never reached: while the
      loop runs there is a connection exactly when it is in the connected state. Every connection made was lost, or is
      the current one, or was logged out, and that at most once, at the exit. */
  lemma ConnectionIffConnected(configured: int, tr: seq<Client>, acts: seq<Action>, j: nat)
    requires IsRun(configured, tr, acts) && j <= |acts|
    ensures var c := tr[j];
      && (c.fault == None || c.fault == Some(AlreadyInIdle))
      && (!c.exited ==> (c.conn.Some? <==> c.connected))
      && (c.exited ==> c.conn == None)
      && c.made == c.lost + c.loggedOut + (if c.conn.Some? then 1 else 0)
      && c.loggedOut <= (if c.exited then 1 else 0)
  {
    RunInv(configured, tr, acts, j);
  }

  // ---- How many callers may be inside Idle

  /** Nobody calls Idle while another caller is inside. */
  predicate Polite(c: Client, a: Action) {
    a.CallIdle? && !a.sawShutdown ==> c.idle == None && c.idleWaiting == []
  }

  predicate Alone(c: Client) {
    Inv(c) && c.fault == None && Inside(c) <= 1
  }

  ghost predicate PoliteStep(c: Client, a: Action, d: Client) {
    Step(c, a, d) && Polite(c, a)
  }

  /** IDLEs blocked or held. */
  function Inside(c: Client): nat {
    |c.idleWaiting| + One(c.idle.Some?)
  }

  predicate ByCaller(a: Action) {
    a.CallIdle? || a.Call? || a.CallLogout? || a.CloseStop?
  }

  lemma CallerEffect(c: Client, a: Action)
    requires Enabled(c, a) && ByCaller(a)
    ensures var d := Next(c, a);
      && d.fault == c.fault && d.idle == c.idle && d.connected == c.connected
      && |d.idleWaiting| == |c.idleWaiting| + One(a.CallIdle? && !a.sawShutdown)
  {
  }

  lemma ConnectedEffect(c: Client, a: Action)
    requires Shape(c) && Enabled(c, a) && (a.Upgrade? || a.Disconnects? || a.DirectIdle? || a.Serve?)
    ensures var d := Next(c, a); d.fault == None && d.idle == None && |d.idleWaiting| <= |c.idleWaiting|
  {
  }

  lemma LogoutEffect(c: Client)
    requires Shape(c) && Enabled(c, Logout)
    ensures var d := Next(c, Logout); d.fault == None && d.idle == None && d.idleWaiting == []
  {
  }

  lemma DisconnectedEffect(c: Client, wake: Wake, attempt: Attempt)
    requires Shape(c) && Enabled(c, Disconnected(wake, attempt))
    ensures var d := Next(c, Disconnected(wake, attempt));
      && (d.fault.Some? <==> wake.TakeIdle? && c.idle.Some?)
      && Inside(d) <= Inside(c)
  {
  }

  /** Only a call lets one more IDLE in, and only taking one while another is held is a panic. */
  lemma InsideEffect(c: Client, a: Action)
    requires Shape(c) && Enabled(c, a) && c.fault == None
    ensures Inside(Next(c, a)) <= Inside(c) + One(a.CallIdle? && !a.sawShutdown)
    ensures Next(c, a).fault.Some? <==> a.Disconnected? && a.wake.TakeIdle? && c.idle.Some?
  {
    if ByCaller(a) {
      CallerEffect(c, a);
    } else if a.Disconnected? {
      DisconnectedEffect(c, a.wake, a.attempt);
    } else if a.Logout? {
      LogoutEffect(c);
    } else {
      ConnectedEffect(c, a);
    }
  }

  lemma AloneKept(c: Client, a: Action)
    requires Alone(c) && Enabled(c, a) && Polite(c, a)
    ensures Alone(Next(c, a))
  {
    InvKept(c, a);
    InsideEffect(c, a);
  }

  /** With at most one caller inside Idle at a time, no panic is reached, and no IDLE is kept waiting by another. */
  lemma PoliteCallersNeverPanic(configured: int, tr: seq<Client>, acts: seq<Action>, j: nat)
    requires IsRun(configured, tr, acts) && j <= |acts|
    requires forall k :: 0 <= k < |acts| ==> Polite(tr[k], acts[k])
    ensures tr[j].fault == None && (tr[j].idle == None || tr[j].idleWaiting == [])
  {
    forall k {:trigger acts[k]} | 0 <= k < |acts|
      ensures PoliteStep(tr[k], acts[k], tr[k + 1])
    {
      assert Step(tr[k], acts[k], tr[k + 1]);
    }
    InitInv(configured);
    forall c, a, d | Alone(c) && PoliteStep(c, a, d)
      ensures Alone(d)
    {
      AloneKept(c, a);
    }
    Paths.Invariant(PoliteStep, Alone, tr, acts, j);
  }

  /** Two callers are inside Idle whose requests the loop may both take while disconnected. One held while connected is
      not such a one: the loop upgrades it before anything else. */
  predicate Contended(c: Client) {
    |c.idleWaiting| + One(!c.connected && c.idle.Some?) >= 2
  }

  predicate NotAnIdle(a: Action) {
    !a.CallIdle?
  }

  predicate Panicked(c: Client) {
    c.fault.Some?
  }

  /** Some way of going on, with no further call of Idle, panics. */
  ghost predicate MayPanic(c: Client) {
    Paths.Leads(Step, NotAnIdle, c, Panicked)
  }

  const RETRY: Action := Disconnected(TakeIdle(0), Fails(0))

  lemma PanicsHeld(c: Client)
    requires c.fault == None && !c.exited && !c.connected && c.idle.Some? && c.idleWaiting != []
    ensures MayPanic(c)
  {
    var d := Next(c, RETRY);
    Paths.IsThere(Step, NotAnIdle, d, Panicked);
    Paths.OneStepEarlier(Step, NotAnIdle, c, RETRY, d, Panicked);
  }

  lemma PanicsDisconnected(c: Client)
    requires c.fault == None && !c.exited && !c.connected && c.idle == None && |c.idleWaiting| >= 2
    ensures MayPanic(c)
  {
    var d := Next(c, RETRY);
    PanicsHeld(d);
    Paths.OneStepEarlier(Step, NotAnIdle, c, RETRY, d, Panicked);
  }

  lemma PanicsConnected(c: Client)
    requires c.fault == None && !c.exited && c.connected && c.conn.Some? && c.idle == None && |c.idleWaiting| >= 2
    ensures MayPanic(c)
  {
    var d := Next(c, Disconnects);
    PanicsDisconnected(d);
    Paths.OneStepEarlier(Step, NotAnIdle, c, Disconnects, d, Panicked);
  }

  lemma ContendedMayPanic(c: Client)
    requires Inv(c) && c.fault == None && Contended(c)
    ensures MayPanic(c)
  {
    if !c.connected && c.idle.Some? {
      PanicsHeld(c);
    } else if !c.connected {
      PanicsDisconnected(c);
    } else if c.idle == None {
      PanicsConnected(c);
    } else {
      PanicsConnected(Next(c, Upgrade(0)));
      Paths.OneStepEarlier(Step, NotAnIdle, c, Upgrade(0), Next(c, Upgrade(0)), Panicked);
    }
  }

  predicate Calm(c: Client) {
    Inv(c) && c.fault == None && !Contended(c)
  }

  lemma StaysUncontended(c: Client, a: Action)
    requires Calm(c) && Enabled(c, a) && !a.CallIdle?
    ensures !Contended(Next(c, a))
  {
    if ByCaller(a) {
      CallerEffect(c, a);
    } else if a.Disconnected? {
      DisconnectedEffect(c, a.wake, a.attempt);
    } else if a.Logout? {
      LogoutEffect(c);
    } else {
      ConnectedEffect(c, a);
    }
  }

  lemma CalmKept(c: Client, a: Action)
    requires Calm(c) && Enabled(c, a) && !a.CallIdle?
    ensures Calm(Next(c, a))
  {
    InvKept(c, a);
    InsideEffect(c, a);
    StaysUncontended(c, a);
  }

  lemma {:induction false} CalmAlong(tr: seq<Client>, acts: seq<Action>)
    requires Paths.IsPath(Step, tr, acts) && Calm(tr[0]) && forall k :: 0 <= k < |acts| ==> NotAnIdle(acts[k])
    ensures Calm(tr[|acts|])
    decreases |acts|
  {
    if acts != [] {
      Paths.Tail(Step, tr, acts);
      CalmKept(tr[0], acts[0]);
      CalmAlong(tr[1..], acts[1..]);
    }
  }

  /** In every reachable state: the client may panic, without anyone calling Idle again, if and only if two callers
      are inside whose requests can both be taken while disconnected. */
  lemma PanicIff(configured: int, tr: seq<Client>, acts: seq<Action>, j: nat)
    requires IsRun(configured, tr, acts) && j <= |acts| && tr[j].fault == None
    ensures MayPanic(tr[j]) <==> Contended(tr[j])
  {
    RunInv(configured, tr, acts, j);
    var c := tr[j];
    if Contended(c) {
      ContendedMayPanic(c);
    }
    if MayPanic(c) && !Contended(c) {
      var more, on :| Paths.IsWay(Step, NotAnIdle, c, Panicked, more, on);
      CalmAlong(more, on);
    }
  }

  /** Two callers are enough, at any time from the very start. */
  lemma SecondIdlePanics(first: IdleRequest, second: IdleRequest, configured: int)
    ensures var start := FreshClient(configured);
      var acts := [CallIdle(first, false), CallIdle(second, false)];
      var c := start.(called := multiset{ForIdle(first), ForIdle(second)}, idleWaiting := [first, second]);
      && IsRun(configured, [start, start.(called := multiset{ForIdle(first)}, idleWaiting := [first]), c], acts)
      && MayPanic(c)
  {
    var start := FreshClient(configured);
    var c := Next(start, CallIdle(first, false));
    var d := Next(c, CallIdle(second, false));
    assert multiset{} + multiset{ForIdle(first)} + multiset{ForIdle(second)}
        == multiset{ForIdle(first), ForIdle(second)};
    assert d == start.(called := multiset{ForIdle(first), ForIdle(second)}, idleWaiting := [first, second]);
    PanicsDisconnected(d);
  }

  lemma Parts(a: multiset<Caller>, w: multiset<Caller>, d: multiset<Caller>, x: Caller)
    ensures (a + w + d)[x] == a[x] + w[x] + d[x]
  {
  }

  /** A call made once has, at every moment, been answered once, or is waiting once, or is a Select that was dropped
      at the exit; and nobody waits after the exit. */
  lemma AnsweredOnce(configured: int, tr: seq<Client>, acts: seq<Action>, j: nat, x: Caller)
    requires IsRun(configured, tr, acts) && j <= |acts|
    ensures var c := tr[j];
      && c.called[x] == AnsweredCallers(c.answers)[x] + Waiting(c)[x] + RequestCallers(c.dropped)[x]
      && (c.exited ==> Waiting(c) == multiset{})
      && (forall i :: 0 <= i < |c.dropped| ==> c.exited && c.dropped[i].kind == SelectCall)
  {
    RunInv(configured, tr, acts, j);
    var c := tr[j];
    Parts(AnsweredCallers(c.answers), Waiting(c), RequestCallers(c.dropped), x);
  }

  /** Every IDLE run on a connection, whether upgraded or direct, ran with its caller's own stop channel and options. */
  lemma IdleRunsAsAsked(configured: int, tr: seq<Client>, acts: seq<Action>, j: nat, i: nat)
    requires IsRun(configured, tr, acts) && j <= |acts| && i < |tr[j].handed|
    ensures tr[j].handed[i].1 == tr[j].handed[i].0.stop && tr[j].handed[i].2 == tr[j].handed[i].0.opts
  {
    RunInv(configured, tr, acts, j);
  }

  /** Nobody has been told that the connection is closed, or been given a made-up mailbox. */
  predicate NobodyRefused(c: Client) {
    forall i :: 0 <= i < |c.answers| ==> c.answers[i].reply.ReplyNil? || c.answers[i].reply.ReplyResult?
  }

  lemma RefusalStep(c: Client, a: Action)
    requires Enabled(c, a) && NobodyRefused(c) && !Next(c, a).shutdown
    ensures NobodyRefused(Next(c, a))
  {
  }

  /** However often the connection is lost, a caller is refused only once a logout has been asked for. */
  lemma RefusedOnlyAfterLogout(configured: int, tr: seq<Client>, acts: seq<Action>, j: nat)
    requires IsRun(configured, tr, acts) && j <= |acts| && !tr[j].shutdown
    ensures NobodyRefused(tr[j])
  {
    var patient := (c: Client) => c.shutdown || NobodyRefused(c);
    forall c, a, d | patient(c) && Step(c, a, d)
      ensures patient(d)
    {
      if !d.shutdown {
        ShutdownStays(c, a);
        RefusalStep(c, a);
      }
    }
    Paths.Invariant(Step, patient, tr, acts, j);
  }

  lemma ShutdownStays(c: Client, a: Action)
    requires Enabled(c, a)
    ensures c.shutdown ==> Next(c, a).shutdown
  {
  }

  /** Closing its stop channel lets a held IDLE be answered, with no error, before any connection is made. */
  lemma HeldIdleStops(configured: int, tr: seq<Client>, acts: seq<Action>, j: nat, attempt: Attempt)
    requires IsRun(configured, tr, acts) && j <= |acts|
    requires attempt.Fails? ==> attempt.jitter < JITTER
    requires tr[j].fault == None && !tr[j].exited && !tr[j].connected && tr[j].idle.Some?
    requires tr[j].idle.value.stop.Some? && tr[j].idle.value.stop.value in tr[j].closed
    ensures Enabled(tr[j], Disconnected(StopFires, attempt))
    ensures var d := Next(tr[j], Disconnected(StopFires, attempt));
      d.idle == None && d.stopIdle == None
      && d.answers == tr[j].answers + [Answer(ForIdle(tr[j].idle.value), ReplyNil)]
  {
    RunInv(configured, tr, acts, j);
  }

  /** The reconnect delay in every run: 2^(k-1) seconds after k failures from the start, 2^k after k failures since
      the last connection, at most 999 ms more, never above the maximum. */
  lemma DelayIsBounded(configured: int, tr: seq<Client>, acts: seq<Action>, j: nat)
    requires IsRun(configured, tr, acts) && j <= |acts|
    ensures var c := tr[j];
      && (c.made == 0 && c.failures == [] ==> c.delay == 0)
      && (c.made == 0 && c.failures != [] ==> Within(c.delay, |c.failures| - 1, MaxDelay(configured)))
      && (c.made > 0 ==> Within(c.delay, |c.failures|, MaxDelay(configured)))
  {
    RunInv(configured, tr, acts, j);
    MaxDelayFixed(configured, tr, acts, j);
    BackoffClosedForm(tr[j].failures, configured);
  }

  lemma {:induction false} MaxDelayFixed(configured: int, tr: seq<Client>, acts: seq<Action>, j: nat)
    requires IsRun(configured, tr, acts) && j <= |acts|
    ensures tr[j].maxDelay == MaxDelay(configured)
  {
    if j > 0 {
      MaxDelayFixed(configured, tr, acts, j - 1);
      assert Step(tr[j - 1], acts[j - 1], tr[j - 1 + 1]);
      MaxDelayKept(tr[j - 1], acts[j - 1]);
    }
  }

  lemma MaxDelayKept(c: Client, a: Action)
    requires Enabled(c, a)
    ensures Next(c, a).maxDelay == c.maxDelay
  {
  }
}
