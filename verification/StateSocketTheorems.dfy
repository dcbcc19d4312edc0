/** What holds over every run of the state socket, from its construction on. */
module StateSocketTheorems {
  import opened Common
  import opened StateSockets

  /** A run: the options it started with and the events delivered since, the latest outermost. */
  datatype Run = Begin(initial: nat, grace: nat) | Then(run: Run, event: Event) {
    function Options(): (nat, nat) { if Begin? then (initial, grace) else run.Options() }

    /** Whether the runtime could deliver every event. */
    predicate Happens() { Begin? || (run.Happens() && Possible(run.After(), event)) }

    function After(): (s: State)
      ensures s.Valid()
    {
      if Begin? then Start(initial, grace)
      else if Possible(run.After(), event) then Step(run.After(), event)
      else run.After()
    }

    predicate Closed() { Then? && (event == CloseCalled || run.Closed()) }

    predicate Extends(base: Run) { this == base || (Then? && run.Extends(base)) }
  }

  // ---- the invariant over a run ----

  lemma {:induction false} StepKeepsOptions(s: State, e: Event)
    requires s.Valid() && Possible(s, e)
    ensures Step(s, e).closed <==> s.closed || e == CloseCalled
    ensures Step(s, e).initial == s.initial && Step(s, e).grace == s.grace
  {
  }

  lemma {:induction false} RunKeeps(r: Run)
    requires r.Happens()
    ensures Invariant(r.After()) && (r.After().closed <==> r.Closed())
    ensures (r.After().initial, r.After().grace) == r.Options()
  {
    if r.Then? {
      RunKeeps(r.run);
      StepKeeps(r.run.After(), r.event);
      StepKeepsOptions(r.run.After(), r.event);
    }
  }

  // ---- one socket or one reconnect ----

  predicate LiveSocket(s: State, i: nat) {
    i < |s.world.sockets| && s.world.sockets[i].attached && s.world.sockets[i].ready != ReadyState.Closed
  }

  predicate Pending(s: State, h: nat, callback: Callback) {
    h in s.world.timers && s.world.timers[h].callback == callback
  }

  /** Until close() is called, exactly one of an attached socket not yet closed and a pending reconnect timer, and only
      one of it. */
  lemma {:induction false} SocketOrReconnect(r: Run)
    requires r.Happens() && !r.Closed()
    ensures (exists i :: LiveSocket(r.After(), i)) != (exists h :: Pending(r.After(), h, Reconnect))
    ensures forall i, j :: LiveSocket(r.After(), i) && LiveSocket(r.After(), j) ==> i == j
    ensures forall c, h, k :: Pending(r.After(), h, c) && Pending(r.After(), k, c) ==> h == k
  {
    RunKeeps(r);
    var s := r.After();
    if s.reconnect.Some? {
      assert Pending(s, s.reconnect.value, Reconnect);
    } else {
      assert LiveSocket(s, |s.world.sockets| - 1);
    }
  }

  // ---- what an event means to the client ----

  datatype Seen = Up | Down | Nudged | Reported | Quiet

  /** The client's socket is the latest one; it comes up or goes down, the caller nudges, or an error is reported. */
  function Sees(s: State, e: Event): Seen
    requires Possible(s, e)
  {
    match e
    case SocketOpens(i) => if i == |s.world.sockets| - 1 then Up else Quiet
    case SocketCloses(i) => if i == |s.world.sockets| - 1 then Down else Quiet
    case TimerFires(h) => if s.world.timers[h].callback == ReportError then Reported else Quiet
    case AppStateChange(active) => if active then Nudged else Quiet
    case NetInfoChange(connected) => if connected then Nudged else Quiet
    case _ => Quiet
  }

  /** The latest event of a run. */
  function Latest(r: Run): Seen
    requires r.Then? && r.Happens()
  {
    Sees(r.run.After(), r.event)
  }

  function Now(r: Run): nat { r.After().world.now }

  // ---- backoff ----

  /** Failures in a row: how often the client's socket went down since it was last up or nudged. */
  function Failures(r: Run): nat
    requires r.Happens()
  {
    if r.Begin? then 0 else
    match Latest(r)
    case Up => 0
    case Nudged => 0
    case Down => Failures(r.run) + 1
    case _ => Failures(r.run)
  }

  predicate OpenIsFresh(s: State) {
    s.world.sockets != [] && (s.world.sockets[|s.world.sockets| - 1].ready == Open ==> s.attempt == 0)
  }

  lemma {:induction false} StepCounts(s: State, e: Event)
    requires s.Valid() && Possible(s, e) && Invariant(s) && OpenIsFresh(s) && !s.closed && e != CloseCalled
    ensures OpenIsFresh(Step(s, e))
    ensures Step(s, e).attempt == match Sees(s, e) case Up => 0 case Nudged => 0 case Down => s.attempt
        + 1 case _ => s.attempt
  {
  }

  lemma {:induction false} AttemptCountsFailures(r: Run)
    requires r.Happens() && !r.Closed()
    ensures r.After().attempt == Failures(r) && OpenIsFresh(r.After())
  {
    if r.Then? {
      RunKeeps(r.run);
      AttemptCountsFailures(r.run);
      StepCounts(r.run.After(), r.event);
    }
  }

  /** The wait doubles with each failure until it reaches the maximum. */
  lemma {:induction false} DelayDoubles(initial: nat, k: nat)
    ensures Delay(initial, 0) == if initial < 30000 then initial else 30000
    ensures Delay(initial, k + 1) == if 2 * Delay(initial, k) < 30000 then 2 * Delay(initial, k) else 30000
  {
    assert initial * Power(k + 1) == 2 * (initial * Power(k));
  }

  ghost predicate Reconnects(s: State, due: nat) {
    s.reconnect.Some? && s.reconnect.value in s.world.timers
        && s.world.timers[s.reconnect.value] == Timer(due, Reconnect)
  }

  lemma {:induction false} StepSchedules(s: State, e: Event)
    requires s.Valid() && Possible(s, e) && Invariant(s) && !s.closed && e != CloseCalled && Sees(s, e) == Down
    ensures Reconnects(Step(s, e), s.world.now + Delay(s.initial, s.attempt))
  {
  }

  /** After k failures in a row, the next one sets a reconnect timer min(initial * 2^k, 30000) ms ahead. */
  lemma {:induction false} BackoffDoubles(r: Run)
    requires r.Then? && r.Happens() && !r.Closed() && Latest(r) == Down
    ensures Reconnects(r.After(), Now(r) + Delay(r.Options().0, Failures(r.run)))
  {
    RunKeeps(r.run);
    AttemptCountsFailures(r.run);
    StepSchedules(r.run.After(), r.event);
    TimeSteps(r.run.After(), r.event);
  }

  /** Time passes only by itself, and only a report adds an error. */
  lemma {:induction false} TimeSteps(s: State, e: Event)
    requires s.Valid() && Possible(s, e)
    ensures Step(s, e).world.now == s.world.now + if e.Passes? then e.ms else 0
    ensures Step(s, e).world.errors == s.world.errors + if Sees(s, e) == Reported then [s.world.now] else []
  {
  }

  /** No nudge and no close() since `base`. */
  predicate Undisturbed(r: Run, base: Run)
    requires r.Happens()
  {
    r == base || (r.Then? && Latest(r) != Nudged && r.event != CloseCalled && Undisturbed(r.run, base))
  }

  ghost predicate WaitsOrDue(s: State, count: nat, due: nat) {
    || s.world.now >= due
    || (|s.world.sockets| == count && s.reconnect.Some? && s.reconnect.value in s.world.timers
        && s.world.timers[s.reconnect.value].due == due)
  }

  lemma {:induction false} StepWaits(s: State, e: Event, count: nat, due: nat)
    requires s.Valid() && Possible(s, e) && Invariant(s) && !s.closed && WaitsOrDue(s, count, due)
    requires Sees(s, e) != Nudged && e != CloseCalled
    ensures WaitsOrDue(Step(s, e), count, due)
  {
  }

  lemma {:induction false} Waits(r: Run, base: Run, count: nat, due: nat)
    requires r.Happens() && !r.Closed() && Undisturbed(r, base) && base.Happens()
        && WaitsOrDue(base.After(), count, due)
    ensures WaitsOrDue(r.After(), count, due)
  {
    if r != base {
      RunKeeps(r.run);
      Waits(r.run, base, count, due);
      StepWaits(r.run.After(), r.event, count, due);
    }
  }

  /** After the (k+1)-st failure in a row, no socket is created before the wait is over unless the caller nudges. */
  lemma {:induction false} NoEarlyReconnect(r: Run, base: Run)
    requires base.Then? && base.Happens() && Latest(base) == Down && r.Happens() && !r.Closed() && !base.Closed()
        && Undisturbed(r, base)
    ensures |r.After().world.sockets| > |base.After().world.sockets| ==>
            Now(r) >= Now(base) + Delay(base.Options().0, Failures(base.run))
  {
    BackoffDoubles(base);
    Waits(r, base, |base.After().world.sockets|, Now(base) + Delay(base.Options().0, Failures(base.run)));
  }

  /** And once it is over, the pending timer creates one. */
  lemma {:induction false} RetryIsPossible(r: Run, ms: nat)
    requires r.Happens() && !r.Closed() && r.After().reconnect.Some?
    requires r.After().reconnect.value in r.After().world.timers ==>
        r.After().world.timers[r.After().reconnect.value].due <= Now(r) + ms
    ensures
      var retried := Then(Then(r, Passes(ms)), TimerFires(r.After().reconnect.value));
      && retried.Happens()
      && |retried.After().world.sockets| == |r.After().world.sockets| + 1
      && LiveSocket(retried.After(), |r.After().world.sockets|)
  {
    RunKeeps(r);
    assert Then(r, Passes(ms)).Happens();
  }

  // ---- the connection error ----

  function DownAfter(down: Option<nat>, seen: Seen, now: nat): Option<nat> {
    match seen
    case Up => None
    case Reported => None
    case Down => if down.Some? then down else Some(now)
    case _ => down
  }

  /** When the outage began that has not been reported: the first time the client's socket went down since it was
   * up or an error was raised. */
  function DownSince(r: Run): Option<nat>
    requires r.Happens()
  {
    if r.Begin? then None else DownAfter(DownSince(r.run), Latest(r), Now(r.run))
  }

  ghost predicate TimerTracks(s: State, down: Option<nat>) {
    match down
    case None => s.errorTimer.None?
    case Some(t) =>
      s.errorTimer.Some? && s.errorTimer.value in s.world.timers
          && s.world.timers[s.errorTimer.value].due == t + s.grace
  }

  lemma {:induction false} StepTracks(s: State, e: Event, down: Option<nat>)
    requires s.Valid() && Possible(s, e) && Invariant(s) && !s.closed && e != CloseCalled && TimerTracks(s, down)
    ensures TimerTracks(Step(s, e), DownAfter(down, Sees(s, e), s.world.now))
  {
  }

  lemma {:induction false} ErrorTimerTracksOutage(r: Run)
    requires r.Happens() && !r.Closed()
    ensures TimerTracks(r.After(), DownSince(r))
  {
    if r.Then? {
      RunKeeps(r.run);
      ErrorTimerTracksOutage(r.run);
      StepTracks(r.run.After(), r.event, DownSince(r.run));
    }
  }

  /** A connection error can be raised exactly when an unreported outage has outlasted the grace period and close() was
      not called. */
  lemma {:induction false} ErrorIff(r: Run)
    requires r.Happens()
    ensures (exists h :: Possible(r.After(), TimerFires(h)) && Sees(r.After(), TimerFires(h)) == Reported) <==>
            (!r.Closed() && DownSince(r).Some? && DownSince(r).value + r.Options().1 <= Now(r))
  {
    RunKeeps(r);
    var s := r.After();
    if !r.Closed() {
      ErrorTimerTracksOutage(r);
      if s.errorTimer.Some? && s.world.timers[s.errorTimer.value].due <= s.world.now {
        assert Possible(s, TimerFires(s.errorTimer.value)) && Sees(s, TimerFires(s.errorTimer.value)) == Reported;
      }
    }
  }

  lemma {:induction false} TimeMoves(r: Run, earlier: Run)
    requires r.Happens() && r.Extends(earlier)
    ensures earlier.Happens() && Now(earlier) <= Now(r)
  {
    if r != earlier {
      TimeMoves(r.run, earlier);
      TimeSteps(r.run.After(), r.event);
    }
  }

  lemma {:induction false} NoOpenSinceOutage(r: Run, open: Run)
    requires r.Happens() && r.Extends(open) && open.Then? && open.Happens() && Latest(open) == Up && DownSince(r).Some?
    ensures Now(open) <= DownSince(r).value
  {
    TimeMoves(r, open);
    if r != open && DownSince(r.run).Some? { NoOpenSinceOutage(r.run, open); }
  }

  lemma {:induction false} ReportNeedsOutage(r: Run)
    requires r.Then? && r.Happens() && Latest(r) == Reported
    ensures DownSince(r.run).Some? && DownSince(r.run).value + r.Options().1 <= Now(r.run)
  {
    ErrorIff(r.run);
    assert Sees(r.run.After(), TimerFires(r.event.timer)) == Reported;
  }

  /** A connection error is raised only if the socket did not come up during the grace period before it. */
  lemma {:induction false} NoErrorWithinGrace(r: Run, open: Run)
    requires r.Then? && r.Happens() && Latest(r) == Reported
    requires r.run.Extends(open) && open.Then? && open.Happens() && Latest(open) == Up
    ensures Now(open) + r.Options().1 <= Now(r)
  {
    ReportNeedsOutage(r);
    TimeSteps(r.run.After(), r.event);
    NoOpenSinceOutage(r.run, open);
  }

  ghost predicate Spaced(errors: seq<nat>, grace: nat, down: Option<nat>, now: nat) {
    && (forall i :: 0 <= i < |errors| - 1 ==> errors[i] + grace <= errors[i + 1])
    && (errors != [] ==> errors[|errors| - 1] <= now)
    && (errors != [] && down.Some? ==> errors[|errors| - 1] <= down.value)
  }

  lemma {:induction false} OneMoreError(errors: seq<nat>, grace: nat, down: nat, now: nat)
    requires Spaced(errors, grace, Some(down), now) && down + grace <= now
    ensures Spaced(errors + [now], grace, None, now)
  {
  }

  lemma {:induction false} StepSpaced(s: State, e: Event, grace: nat, down: Option<nat>)
    requires s.Valid() && Possible(s, e) && Spaced(s.world.errors, grace, down, s.world.now)
    requires Sees(s, e) == Reported ==> down.Some? && down.value + grace <= s.world.now
    ensures Spaced(Step(s, e).world.errors, grace, DownAfter(down, Sees(s, e), s.world.now), Step(s, e).world.now)
  {
    TimeSteps(s, e);
    if Sees(s, e) == Reported {
      OneMoreError(s.world.errors, grace, down.value, s.world.now);
    } else {
      EmptyLast(s.world.errors);
    }
  }

  /** Errors are never closer together than the grace period. */
  lemma {:induction false} ErrorsAreSpaced(r: Run)
    requires r.Happens()
    ensures Spaced(r.After().world.errors, r.Options().1, DownSince(r), Now(r))
  {
    if r.Then? {
      ErrorsAreSpaced(r.run);
      if Latest(r) == Reported { ReportNeedsOutage(r); }
      StepSpaced(r.run.After(), r.event, r.Options().1, DownSince(r.run));
    }
  }

  // ---- what is announced ----

  /** What onConnectionChange should have been told: each time the client's socket came up or went down before
      close(). */
  function Announced(r: Run): seq<bool>
    requires r.Happens()
  {
    if r.Begin? then [] else
    Announced(r.run) + if r.run.Closed() then [] else
    match Latest(r)
    case Up => [true]
    case Down => [false]
    case _ => []
  }

  lemma {:induction false} StepAnnounces(s: State, e: Event)
    requires s.Valid() && Possible(s, e) && Invariant(s)
    ensures Step(s, e).world.changes == s.world.changes + if s.closed then [] else
      match Sees(s, e) case Up => [true] case Down => [false] case _ => []
  {
  }

  predicate ToldOfOpen(s: State) {
    s.Valid() && (!s.closed && s.IsConnected() ==>
        s.world.changes != [] && s.world.changes[|s.world.changes| - 1])
  }

  lemma {:induction false} StepTells(s: State, e: Event)
    requires s.Valid() && Possible(s, e) && Invariant(s) && ToldOfOpen(s)
    ensures ToldOfOpen(Step(s, e))
  {
  }

  /** Over every run, onConnectionChange is told exactly that, in that order; and while the client is connected the last
      thing it was told is true. */
  lemma {:induction false} ChangesAreAnnounced(r: Run)
    requires r.Happens()
    ensures r.After().world.changes == Announced(r)
    ensures !r.Closed() && r.After().IsConnected() ==> Announced(r) != [] && Announced(r)[|Announced(r)| - 1]
  {
    ConnectedIsTold(r);
    RunKeeps(r);
    if r.Then? {
      RunKeeps(r.run);
      ChangesAreAnnounced(r.run);
      StepAnnounces(r.run.After(), r.event);
    }
  }

  lemma {:induction false} ConnectedIsTold(r: Run)
    requires r.Happens()
    ensures ToldOfOpen(r.After())
  {
    if r.Then? {
      RunKeeps(r.run);
      ConnectedIsTold(r.run);
      StepTells(r.run.After(), r.event);
    }
  }

  // ---- close() is final ----

  /** After close() no socket is created, no timer is pending, no error is raised and no change is announced, whatever
      happens. */
  lemma {:induction false} CloseIsFinal(r: Run, closed: Run)
    requires r.Happens() && r.Extends(closed) && closed.Happens() && closed.Closed()
    ensures |r.After().world.sockets| == |closed.After().world.sockets| && r.After().world.timers == map[]
    ensures r.After().world.errors == closed.After().world.errors
        && r.After().world.changes == closed.After().world.changes
  {
    RunKeeps(r);
    if r != closed {
      RunKeeps(r.run);
      ClosedExtends(r.run, closed);
      CloseIsFinal(r.run, closed);
    }
  }

  lemma {:induction false} ClosedExtends(r: Run, closed: Run)
    requires r.Extends(closed) && closed.Closed()
    ensures r.Closed()
  {
    if r != closed { ClosedExtends(r.run, closed); }
  }
}
