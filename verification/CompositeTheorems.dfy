/** What a fan-out does to every member, whatever the order the members' tasks advance in and whichever of them fail. */
module CompositeTheorems {
  import opened Common
  import opened Composite

  // ---- interleavings ----

  /** The steps of a schedule that belong to one member. */
  function Only<D, C>(w: World<D, C>, n: string, schedule: seq<nat>): seq<nat> {
    if schedule == [] then [] else
    (if schedule[0] < |w.tasks| && w.tasks[schedule[0]].member == n then [schedule[0]] else [])
        + Only(w, n, schedule[1..])
  }

  predicate SameOwners<D, C>(a: World<D, C>, b: World<D, C>) {
    |a.tasks| == |b.tasks| && forall i :: 0 <= i < |a.tasks| ==> a.tasks[i].member == b.tasks[i].member
  }

  /** Two worlds alike as far as one member and its tasks go. */
  predicate Alike<D(==), C(==)>(a: World<D, C>, b: World<D, C>, n: string) {
    && SameOwners(a, b)
    && Get(a.devices, n) == Get(b.devices, n)
    && forall i :: 0 <= i < |a.tasks| && a.tasks[i].member == n ==> a.tasks[i] == b.tasks[i]
  }

  lemma {:induction false} OnlyIsOwners<D, C>(a: World<D, C>, b: World<D, C>, n: string, schedule: seq<nat>)
    requires SameOwners(a, b)
    ensures Only(a, n, schedule) == Only(b, n, schedule)
  {
    if schedule != [] { OnlyIsOwners(a, b, n, schedule[1..]); }
  }

  lemma {:induction false} OwnStep<D, C>(drivers: Drivers<D, C>, a: World<D, C>, b: World<D, C>, n: string, i: nat)
    requires Alike(a, b, n) && i < |a.tasks| && a.tasks[i].member == n
    ensures Alike(StepTask(drivers, a, i), StepTask(drivers, b, i), n) && SameOwners(StepTask(drivers, a, i), a)
  {
    assert Get(a.devices, n) == Get(b.devices, n);
  }

  lemma {:induction false} OtherStep<D, C>(drivers: Drivers<D, C>, a: World<D, C>, b: World<D, C>, n: string, i: nat)
    requires Alike(a, b, n) && (i < |a.tasks| ==> a.tasks[i].member != n)
    ensures Alike(StepTask(drivers, a, i), b, n) && SameOwners(StepTask(drivers, a, i), a)
  {
  }

  /** A member's device and tasks depend only on its own steps: the other members' may come in any order, or not at
      all. */
  lemma {:induction false} MembersDoNotInterfere<D, C>(
      drivers: Drivers<D, C>, a: World<D, C>, b: World<D, C>, n: string, schedule: seq<nat>)
    requires Alike(a, b, n)
    ensures Alike(Run(drivers, a, schedule), Run(drivers, b, Only(b, n, schedule)), n)
    decreases |schedule|
  {
    if schedule != [] {
      var i, rest := schedule[0], schedule[1..];
      var a' := StepTask(drivers, a, i);
      if i < |a.tasks| && a.tasks[i].member == n {
        var b' := StepTask(drivers, b, i);
        OwnStep(drivers, a, b, n, i);
        OwnStep(drivers, b, b, n, i);
        MembersDoNotInterfere(drivers, a', b', n, rest);
        OnlyIsOwners(b, b', n, rest);
        assert Only(b, n, schedule) == [i] + Only(b, n, rest);
        assert ([i] + Only(b, n, rest))[1..] == Only(b, n, rest);
      } else {
        OtherStep(drivers, a, b, n, i);
        MembersDoNotInterfere(drivers, a', b, n, rest);
        EmptyFirst(Only(b, n, rest));
      }
    }
  }

  // ---- a member alone ----

  /** A plan carried out by nobody else: the device it leaves and the exception that stopped it, if one did. */
  function Alone<D, C>(drivers: Drivers<D, C>, todo: seq<C>, d: D): (r: (D, Option<string>)) {
    if todo == [] then (d, None) else
    var (next, error) := drivers.exec(todo[0], d);
    if error.Some? then (next, error) else Alone(drivers, todo[1..], next)
  }

  /** A task somewhere on the way to `end`. */
  predicate OnTheWay<D(==), C>(drivers: Drivers<D, C>, w: World<D, C>, i: nat, end: (D, Option<string>)) {
    && i < |w.tasks| && w.tasks[i].member in w.devices
    && var d := w.devices[w.tasks[i].member];
       match w.tasks[i].status
       case Running(todo) => Alone(drivers, todo, d) == end
       case Finished => end == (d, None)
       case Raised(e) => end == (d, Some(e))
  }

  /** Every other task of the same member is done. */
  predicate OnlyTask<D, C>(w: World<D, C>, i: nat) {
    i < |w.tasks| && forall j :: 0 <= j < |w.tasks| && j != i && w.tasks[j].status.Running? ==>
        w.tasks[j].member != w.tasks[i].member
  }

  lemma {:induction false} StepIsOnTheWay<D, C>(
      drivers: Drivers<D, C>, w: World<D, C>, i: nat, end: (D, Option<string>), step: nat)
    requires OnTheWay(drivers, w, i, end) && OnlyTask(w, i)
    ensures OnTheWay(drivers, StepTask(drivers, w, step), i, end) && OnlyTask(StepTask(drivers, w, step), i)
  {
  }

  lemma {:induction false} RunIsOnTheWay<D, C>(
      drivers: Drivers<D, C>, w: World<D, C>, i: nat, end: (D, Option<string>), schedule: seq<nat>)
    requires OnTheWay(drivers, w, i, end) && OnlyTask(w, i)
    ensures OnTheWay(drivers, Run(drivers, w, schedule), i, end) && OnlyTask(Run(drivers, w, schedule), i)
    decreases |schedule|
  {
    if schedule != [] {
      StepIsOnTheWay(drivers, w, i, end, schedule[0]);
      RunIsOnTheWay(drivers, StepTask(drivers, w, schedule[0]), i, end, schedule[1..]);
    }
  }

  predicate Idle<D, C>(w: World<D, C>, n: string) {
    forall j :: 0 <= j < |w.tasks| && w.tasks[j].status.Running? ==> w.tasks[j].member != n
  }

  lemma {:induction false} StepLeavesIdle<D, C>(drivers: Drivers<D, C>, w: World<D, C>, n: string, step: nat)
    requires Idle(w, n)
    ensures Idle(StepTask(drivers, w, step), n) && Get(StepTask(drivers, w, step).devices, n) == Get(w.devices, n)
  {
  }

  lemma {:induction false} RunLeavesIdle<D, C>(drivers: Drivers<D, C>, w: World<D, C>, n: string, schedule: seq<nat>)
    requires Idle(w, n)
    ensures Get(Run(drivers, w, schedule).devices, n) == Get(w.devices, n)
    decreases |schedule|
  {
    if schedule != [] {
      StepLeavesIdle(drivers, w, n, schedule[0]);
      RunLeavesIdle(drivers, StepTask(drivers, w, schedule[0]), n, schedule[1..]);
    }
  }

  // ---- a fan-out ----

  lemma {:induction false} ParticipantsAre<D, C>(s: Setup<D, C>, op: Op, k: nat)
    requires s.Valid() && k <= |s.names|
    ensures forall n :: n in s.Participants(op, k) <==> n in s.names[..k] && n in s.specs && op !in s.specs[n].skipOps
    ensures Distinct(s.Participants(op, k))
  {
    if k > 0 {
      ParticipantsAre(s, op, k - 1);
      assert s.names[..k] == s.names[..k - 1] + [s.names[k - 1]];
    }
  }

  /** The world in which every participant's task has been submitted. */
  function Begun<D, C>(s: Setup<D, C>, call: Call, w: World<D, C>): World<D, C>
    requires s.Valid()
  {
    s.Submitted(call, s.Participants(call.Op(), |s.names|), w)
  }

  /** What a member's own translated operation makes of its device, alone. */
  function Outcome<D, C>(s: Setup<D, C>, call: Call, n: string, d: D): (r: (D, Option<string>))
    requires s.Valid() && n in s.names
  {
    var c := Translate(s.types[n], s.specs[n], call);
    if c.Err? then (d, Some(c.error)) else Alone(s.drivers, s.drivers.plan(n, c.value), d)
  }

  /** `n` is the i-th participant, known and not still busy with an earlier call. */
  predicate Participant<D, C>(s: Setup<D, C>, call: Call, w: World<D, C>, i: nat, n: string)
    requires s.Valid()
  {
    var ns := s.Participants(call.Op(), |s.names|);
    i < |ns| && ns[i] == n && n in s.names && n in w.devices && Idle(w, n)
  }

  /** The future of the i-th participant. */
  lemma {:induction false} Submission<D, C>(s: Setup<D, C>, call: Call, w: World<D, C>, i: nat, n: string)
    requires s.Valid() && Participant(s, call, w, i, n)
    ensures OnlyTask(Begun(s, call, w), |w.tasks| + i) && Begun(s, call, w).tasks[|w.tasks| + i] == s.NewTask(call, n)
  {
    var k := |s.names|;
    var ns := s.Participants(call.Op(), k);
    ParticipantsAre(s, call.Op(), k);
    var b := Begun(s, call, w);
    forall j | 0 <= j < |b.tasks| && j != |w.tasks| + i && b.tasks[j].status.Running?
      ensures b.tasks[j].member != n
    {
      if j >= |w.tasks| { assert b.tasks[j] == s.NewTask(call, ns[j - |w.tasks|]); }
    }
  }

  lemma {:induction false} SubmissionIsOnTheWay<D, C>(s: Setup<D, C>, call: Call, w: World<D, C>, i: nat, n: string)
    requires s.Valid() && Participant(s, call, w, i, n)
    ensures OnTheWay(s.drivers, Begun(s, call, w), |w.tasks| + i, Outcome(s, call, n, w.devices[n]))
  {
    Submission(s, call, w, i, n);
  }

  /** A future that, once done, left the device and raised the exception that `end` says. */
  predicate EndsAs<D(==), C>(r: World<D, C>, i: nat, n: string, end: (D, Option<string>)) {
    && i < |r.tasks| && n in r.devices
    && match r.tasks[i].status
       case Running(_) => true
       case Finished => (r.devices[n], None) == end
       case Raised(e) => (r.devices[n], Some(e)) == end
  }

  /** Each participant ends as its own translated operation alone would leave it, in whatever order the tasks advance:
      once its future is done, its device is that one, and the future raised exactly what the operation alone
      raises. */
  lemma {:induction false} ParticipantGetsItsOperation<D, C>(
      s: Setup<D, C>, call: Call, w: World<D, C>, i: nat, n: string, schedule: seq<nat>)
    requires s.Valid() && Participant(s, call, w, i, n)
    ensures EndsAs(Run(s.drivers, Begun(s, call, w), schedule), |w.tasks| + i, n, Outcome(s, call, n, w.devices[n]))
  {
    var b, end := Begun(s, call, w), Outcome(s, call, n, w.devices[n]);
    Submission(s, call, w, i, n);
    SubmissionIsOnTheWay(s, call, w, i, n);
    RunIsOnTheWay(s.drivers, b, |w.tasks| + i, end, schedule);
    RunKeepsOwners(s.drivers, b, schedule);
  }

  lemma {:induction false} RunKeepsOwners<D, C>(drivers: Drivers<D, C>, w: World<D, C>, schedule: seq<nat>)
    ensures SameOwners(w, Run(drivers, w, schedule))
    decreases |schedule|
  {
    if schedule != [] { RunKeepsOwners(drivers, StepTask(drivers, w, schedule[0]), schedule[1..]); }
  }

  /** A member that opted out, and every device that is no member, is left alone. */
  lemma {:induction false} OthersAreUntouched<D, C>(
      s: Setup<D, C>, call: Call, w: World<D, C>, n: string, schedule: seq<nat>)
    requires s.Valid() && Idle(w, n) && (n in s.names ==> call.Op() in s.specs[n].skipOps)
    ensures Get(Run(s.drivers, Begun(s, call, w), schedule).devices, n) == Get(w.devices, n)
  {
    var k := |s.names|;
    ParticipantsAre(s, call.Op(), k);
    assert s.names[..k] == s.names;
    var b := Begun(s, call, w);
    forall j | 0 <= j < |b.tasks| && b.tasks[j].status.Running?
      ensures b.tasks[j].member != n
    {
      if j >= |w.tasks| { assert b.tasks[j] == s.NewTask(call, s.Participants(call.Op(), k)[j - |w.tasks|]); }
    }
    RunLeavesIdle(s.drivers, b, n, schedule);
  }

  // ---- the error ----

  predicate Names(errors: seq<(string, string)>, n: string) { exists i :: 0 <= i < |errors| && errors[i].0 == n }

  /** The error names the members whose future raised, or had not finished in time, and no other. */
  lemma {:induction false} ErrorsNameFailures<D, C>(w: World<D, C>, first: nat, k: nat, n: string)
    requires first + k <= |w.tasks|
    ensures Names(Errors(w, first, k), n) <==>
            exists i :: first <= i < first + k && w.tasks[i].member == n && !w.tasks[i].status.Finished?
  {
    if k > 0 {
      ErrorsNameFailures(w, first, k - 1, n);
      var errors, last := Errors(w, first, k - 1), w.tasks[first + k - 1];
      var detail := if last.status.Running? then "no response" else if last.status.Raised? then last.status.error
          else "";
      if last.status.Finished? {
        EmptyLast(errors);
      } else {
        assert Errors(w, first, k) == errors + [(last.member, detail)];
        NamesOneMore(errors, last.member, detail, n);
      }
    }
  }

  lemma {:induction false} NamesOneMore(errors: seq<(string, string)>, member: string, detail: string, n: string)
    ensures Names(errors + [(member, detail)], n) <==> Names(errors, n) || member == n
  {
    var more := errors + [(member, detail)];
    if Names(errors, n) {
      var i :| 0 <= i < |errors| && errors[i].0 == n;
      assert more[i].0 == n;
    }
    assert more[|errors|].0 == member;
  }

  /** The futures of a fan-out, one for each participant in order. */
  lemma {:induction false} Futures<D, C>(
      s: Setup<D, C>, call: Call, w: World<D, C>, schedule: seq<nat>) returns (r: World<D, C>, ns: seq<string>)
    requires s.Valid()
    ensures r == Run(s.drivers, Begun(s, call, w), schedule) && ns == s.Participants(call.Op(), |s.names|)
    ensures |r.tasks| == |w.tasks| + |ns| && forall j :: |w.tasks| <= j < |r.tasks| ==>
        r.tasks[j].member == ns[j - |w.tasks|]
    ensures Distinct(ns)
  {
    var b := Begun(s, call, w);
    r, ns := Run(s.drivers, b, schedule), s.Participants(call.Op(), |s.names|);
    RunKeepsOwners(s.drivers, b, schedule);
    ParticipantsAre(s, call.Op(), |s.names|);
    forall j | |w.tasks| <= j < |w.tasks| + |ns|
      ensures b.tasks[j].member == ns[j - |w.tasks|]
    {
      assert b.tasks[j] == s.NewTask(call, ns[j - |w.tasks|]);
    }
  }

  /** The error names a participant exactly if its future was not done in time or its own operation raises. */
  predicate NamedIff<D, C>(r: World<D, C>, first: nat, count: nat, i: nat, n: string, end: (D, Option<string>)) {
    && first + count <= |r.tasks| && i < count
    && (Names(Errors(r, first, count), n) <==> r.tasks[first + i].status.Running? || end.1.Some?)
  }

  lemma {:induction false} OneFuture<D, C>(
      r: World<D, C>, first: nat, ns: seq<string>, i: nat, end: (D, Option<string>))
    requires |r.tasks| == first + |ns| && i < |ns| && (forall j :: first <= j < |r.tasks| ==>
        r.tasks[j].member == ns[j - first])
    requires Distinct(ns) && EndsAs(r, first + i, ns[i], end)
    ensures NamedIff(r, first, |ns|, i, ns[i], end)
  {
    ErrorsNameFailures(r, first, |ns|, ns[i]);
    assert r.tasks[first + i].member == ns[i];
  }

  lemma {:induction false} FanOutNamesFailures<D, C>(
      s: Setup<D, C>, call: Call, w: World<D, C>, i: nat, n: string, schedule: seq<nat>)
    requires s.Valid() && Participant(s, call, w, i, n)
    ensures NamedIff(Run(s.drivers, Begun(s, call, w), schedule), |w.tasks|, |s.Participants(call.Op(), |s.names|)|, i,
        n,
                     Outcome(s, call, n, w.devices[n]))
  {
    ParticipantGetsItsOperation(s, call, w, i, n, schedule);
    var r, ns := Futures(s, call, w, schedule);
    OneFuture(r, |w.tasks|, ns, i, Outcome(s, call, n, w.devices[n]));
  }

  lemma {:induction false} NoOneElseIsNamed<D, C>(
      s: Setup<D, C>, call: Call, w: World<D, C>, n: string, schedule: seq<nat>)
    requires s.Valid() && n !in s.Participants(call.Op(), |s.names|)
    ensures var ns, r := s.Participants(call.Op(), |s.names|), Run(s.drivers, Begun(s, call, w), schedule);
      |w.tasks| + |ns| <= |r.tasks| && !Names(Errors(r, |w.tasks|, |ns|), n)
  {
    var r, ns := Futures(s, call, w, schedule);
    ErrorsNameFailures(r, |w.tasks|, |ns|, n);
  }

  /** Members are named in the order of the configuration, each once. */
  predicate Ordered(errors: seq<(string, string)>, names: seq<string>) {
    errors == [] || (names != [] &&
      if errors[|errors| - 1].0 == names[|names| - 1] then Ordered(errors[..|errors| - 1], names[..|names| - 1])
      else Ordered(errors, names[..|names| - 1]))
  }

  lemma {:induction false} ErrorsAreOrdered<D, C>(w: World<D, C>, first: nat, k: nat, names: seq<string>)
    requires first + k <= |w.tasks| && |names| == k && forall i :: 0 <= i < k ==> w.tasks[first + i].member == names[i]
    requires Distinct(names)
    ensures Ordered(Errors(w, first, k), names)
  {
    if k > 0 {
      var front := names[..k - 1];
      ErrorsAreOrdered(w, first, k - 1, front);
      var errors, last := Errors(w, first, k - 1), w.tasks[first + k - 1];
      var detail := if last.status.Running? then "no response" else if last.status.Raised? then last.status.error
          else "";
      if last.status.Finished? {
        EmptyLast(errors);
        ErrorsNameFailures(w, first, k - 1, names[k - 1]);
        assert forall i :: first <= i < first + k - 1 ==> w.tasks[i].member == names[i - first];
        assert errors != [] ==> errors[|errors| - 1].0 != names[k - 1];
      } else {
        assert Errors(w, first, k) == errors + [(last.member, detail)];
        assert (errors + [(last.member, detail)])[..|errors|] == errors;
      }
    }
  }

  // ---- what the composite shows ----

  /** A member answered the m-th read; the first is the one when the composite is made. */
  predicate Answered<D, C>(s: Setup<D, C>, t: Trace<D, C>, n: string, m: nat)
    requires t.Shaped() && m <= |t.rounds|
  {
    n in s.names && n in t.worlds[m].devices && n in if m == 0 then t.first else t.rounds[m - 1].Answering()
  }

  predicate Replaces<D>(r: Round<D>, n: string) { r.Replaced? && n in r.states }

  /** A member's device after m rounds. */
  function DeviceAt<D, C>(t: Trace<D, C>, n: string, m: nat): Option<D>
    requires t.Shaped() && m <= |t.rounds|
  {
    Get(t.worlds[m].devices, n)
  }

  /** What the composite shows of a member after m rounds. */
  function ShownAt<D, C>(s: Setup<D, C>, t: Trace<D, C>, n: string, m: nat): Option<D>
    requires t.Shaped() && m <= |t.rounds|
  {
    Get(Shown(t.worlds[m], SeenAt(t, s.names, m)), n)
  }

  // ---- members stay members ----

  lemma {:induction false} RunKeepsMembers<D, C>(drivers: Drivers<D, C>, w: World<D, C>, schedule: seq<nat>)
    ensures Run(drivers, w, schedule).devices.Keys == w.devices.Keys
    decreases |schedule|
  {
    if schedule != [] { RunKeepsMembers(drivers, StepTask(drivers, w, schedule[0]), schedule[1..]); }
  }

  lemma {:induction false} RoundKeepsMembers<D, C>(s: Setup<D, C>, w: World<D, C>, r: Round<D>)
    requires s.Valid()
    ensures AfterRound(s, w, r).devices.Keys == w.devices.Keys
  {
    if r.Command? {
      RunKeepsMembers(s.drivers, Begun(s, r.call, w), r.schedule);
      RunKeepsMembers(s.drivers, Run(s.drivers, Begun(s, r.call, w), r.schedule), r.meanwhile);
    } else if r.State? {
      RunKeepsMembers(s.drivers, w, r.meanwhile);
    }
  }

  lemma {:induction false} MemberStays<D, C>(s: Setup<D, C>, t: Trace<D, C>, n: string, k: nat, m: nat)
    requires Happens(s, t) && k <= m <= |t.rounds|
    ensures DeviceAt(t, n, k).Some? <==> DeviceAt(t, n, m).Some?
  {
    if k < m {
      MemberStays(s, t, n, k, m - 1);
      assert Follows(s, t.worlds[m - 1], t.rounds[m - 1], t.worlds[m]);
      RoundKeepsMembers(s, t.worlds[m - 1], t.rounds[m - 1]);
    }
  }

  // ---- what is shown ----

  /** A round hands over a member's object, leaves it behind, or neither. */
  lemma {:induction false} SeenStep<D, C>(
      w: World<D, C>, after: World<D, C>, names: seq<string>, seen: map<string, Seen<D>>, r: Round<D>, n: string)
    ensures Get(SeenAfter(w, after, names, seen, r), n) ==
            if n in names && n in after.devices && n in r.Answering() then Some(Live)
            else if Get(seen, n) == Some(Live) && Replaces(r, n) && n in w.devices then Some(Frozen(w.devices[n]))
            else Get(seen, n)
  {
  }

  /** A member is shown exactly if it has ever answered a read. */
  lemma {:induction false} NeverReadIsMissing<D, C>(s: Setup<D, C>, t: Trace<D, C>, n: string, m: nat)
    requires Happens(s, t) && m <= |t.rounds|
    ensures ShownAt(s, t, n, m).Some? <==> exists k :: 0 <= k <= m && Answered(s, t, n, k)
  {
    HeldIffAnswered(s, t, n, m);
    if k :| 0 <= k <= m && Answered(s, t, n, k) { MemberStays(s, t, n, k, m); }
  }

  lemma {:induction false} HeldIffAnswered<D, C>(s: Setup<D, C>, t: Trace<D, C>, n: string, m: nat)
    requires t.Shaped() && m <= |t.rounds|
    ensures n in SeenAt(t, s.names, m) <==> exists k :: 0 <= k <= m && Answered(s, t, n, k)
  {
    if m == 0 {
      assert n in SeenAt(t, s.names, 0) <==> Answered(s, t, n, 0);
    } else {
      HeldIffAnswered(s, t, n, m - 1);
      SeenStep(t.worlds[m - 1], t.worlds[m], s.names, SeenAt(t, s.names, m - 1), t.rounds[m - 1], n);
      assert n in SeenAt(t, s.names, m) <==> n in SeenAt(t, s.names, m - 1) || Answered(s, t, n, m);
    }
  }

  /** The round up to which a member still uses the object it had after k: the first that replaces it, or the m-th. */
  function Until<D>(rounds: seq<Round<D>>, n: string, k: nat, m: nat): (j: nat)
    requires k <= m <= |rounds|
    ensures k <= j <= m && (j < m ==> Replaces(rounds[j], n))
    ensures forall i :: k <= i < j ==> !Replaces(rounds[i], n)
    decreases m - k
  {
    if k == m || Replaces(rounds[k], n) then k else Until(rounds, n, k + 1, m)
  }

  lemma {:induction false} UntilOneMore<D>(rounds: seq<Round<D>>, n: string, k: nat, m: nat)
    requires k < m <= |rounds|
    ensures
      var j := Until(rounds, n, k, m - 1);
      Until(rounds, n, k, m) == if j < m - 1 || Replaces(rounds[j], n) then j else m
    decreases m - k
  {
    if k < m - 1 && !Replaces(rounds[k], n) { UntilOneMore(rounds, n, k + 1, m); }
  }

  /** A member last answered the k-th of the first m reads. */
  ghost predicate LastAnswered<D, C>(s: Setup<D, C>, t: Trace<D, C>, n: string, k: nat, m: nat)
    requires t.Shaped() && m <= |t.rounds|
  {
    k <= m && Answered(s, t, n, k) && forall i :: k < i <= m ==> !Answered(s, t, n, i)
  }

  /** What is held of a member that last answered the k-th read: its object until it replaces that. */
  function HeldOf<D, C>(t: Trace<D, C>, n: string, k: nat, m: nat): Option<Seen<D>>
    requires t.Shaped() && k <= m <= |t.rounds|
  {
    var j := Until(t.rounds, n, k, m);
    if j == m then Some(Live) else if DeviceAt(t, n, j).Some? then Some(Frozen(DeviceAt(t, n, j).value)) else None
  }

  /** A member has a device from the k-th read to the m-th. */
  predicate IsMember<D, C>(t: Trace<D, C>, n: string, k: nat, m: nat)
    requires t.Shaped() && m <= |t.rounds|
  {
    forall i :: k <= i <= m ==> DeviceAt(t, n, i).Some?
  }

  /** A round in which a member does not answer. */
  lemma {:induction false} HeldOneMore<D, C>(s: Setup<D, C>, t: Trace<D, C>, n: string, k: nat, m: nat)
    requires t.Shaped() && k < m <= |t.rounds| && !Answered(s, t, n, m)
    requires Get(SeenAt(t, s.names, m - 1), n) == HeldOf(t, n, k, m - 1)
    requires DeviceAt(t, n, m - 1).Some?
    ensures Get(SeenAt(t, s.names, m), n) == HeldOf(t, n, k, m)
  {
    UntilOneMore(t.rounds, n, k, m);
    NotAnswering(s, t, n, m);
  }

  lemma {:induction false} AnswererIsLive<D, C>(s: Setup<D, C>, t: Trace<D, C>, n: string, m: nat)
    requires t.Shaped() && m <= |t.rounds| && Answered(s, t, n, m)
    ensures Get(SeenAt(t, s.names, m), n) == Some(Live)
  {
    if m > 0 { SeenStep(t.worlds[m - 1], t.worlds[m], s.names, SeenAt(t, s.names, m - 1), t.rounds[m - 1], n); }
  }

  /** The reference to a member that last answered the k-th read: live until it replaces the object. */
  lemma {:induction false} HeldSince<D, C>(s: Setup<D, C>, t: Trace<D, C>, n: string, k: nat, m: nat)
    requires t.Shaped() && m <= |t.rounds| && LastAnswered(s, t, n, k, m) && IsMember(t, n, k, m)
    ensures Get(SeenAt(t, s.names, m), n) == HeldOf(t, n, k, m)
  {
    if k == m {
      AnswererIsLive(s, t, n, m);
    } else {
      assert !Answered(s, t, n, m);
      HeldSince(s, t, n, k, m - 1);
      HeldOneMore(s, t, n, k, m);
    }
  }

  lemma {:induction false} NotAnswering<D, C>(s: Setup<D, C>, t: Trace<D, C>, n: string, m: nat)
    requires t.Shaped() && 0 < m <= |t.rounds| && !Answered(s, t, n, m)
    ensures
      var held := Get(SeenAt(t, s.names, m - 1), n);
      Get(SeenAt(t, s.names, m), n) ==
      if held == Some(Live) && Replaces(t.rounds[m - 1], n) && DeviceAt(t, n, m - 1).Some?
      then Some(Frozen(DeviceAt(t, n, m - 1).value)) else held
  {
    SeenStep(t.worlds[m - 1], t.worlds[m], s.names, SeenAt(t, s.names, m - 1), t.rounds[m - 1], n);
  }

  /** After any run, a member that last answered the k-th read shows the state it has now, reported or not; or the one
      it had when it replaced the object it handed over then. */
  lemma {:induction false} ObjectIsShown<D, C>(s: Setup<D, C>, t: Trace<D, C>, n: string, k: nat, m: nat)
    requires Happens(s, t) && m <= |t.rounds| && LastAnswered(s, t, n, k, m)
    ensures ShownAt(s, t, n, m) == DeviceAt(t, n, Until(t.rounds, n, k, m))
    ensures DeviceAt(t, n, Until(t.rounds, n, k, m)).Some?
  {
    forall i | k <= i <= m
      ensures DeviceAt(t, n, i).Some?
    {
      MemberStays(s, t, n, k, i);
    }
    HeldSince(s, t, n, k, m);
  }

  /** A round that cannot touch a member's state: a command it skips, or a change of others. */
  predicate Spares<D, C>(s: Setup<D, C>, r: Round<D>, n: string)
    requires s.Valid()
  {
    && (r.Command? ==> n in s.names && r.call.Op() in s.specs[n].skipOps)
    && (r.Changed? || r.Replaced? ==> n !in r.states)
  }

  lemma {:induction false} RunKeepsIdle<D, C>(drivers: Drivers<D, C>, w: World<D, C>, n: string, schedule: seq<nat>)
    requires Idle(w, n)
    ensures Idle(Run(drivers, w, schedule), n)
    decreases |schedule|
  {
    if schedule != [] {
      StepLeavesIdle(drivers, w, n, schedule[0]);
      RunKeepsIdle(drivers, StepTask(drivers, w, schedule[0]), n, schedule[1..]);
    }
  }

  lemma {:induction false} BegunIsIdle<D, C>(s: Setup<D, C>, call: Call, w: World<D, C>, n: string)
    requires s.Valid() && Idle(w, n) && n in s.names && call.Op() in s.specs[n].skipOps
    ensures Idle(Begun(s, call, w), n)
  {
    var k := |s.names|;
    ParticipantsAre(s, call.Op(), k);
    var b, ns := Begun(s, call, w), s.Participants(call.Op(), k);
    forall j | 0 <= j < |b.tasks| && b.tasks[j].status.Running?
      ensures b.tasks[j].member != n
    {
      if j >= |w.tasks| { assert b.tasks[j] == s.NewTask(call, ns[j - |w.tasks|]); }
    }
  }

  lemma {:induction false} SparedRound<D, C>(s: Setup<D, C>, w: World<D, C>, r: Round<D>, n: string)
    requires s.Valid() && Idle(w, n) && Spares(s, r, n)
    ensures Idle(AfterRound(s, w, r), n) && Get(AfterRound(s, w, r).devices, n) == Get(w.devices, n)
  {
    match r
    case Command(call, schedule, meanwhile, _) =>
      BegunIsIdle(s, call, w, n);
      var b := Begun(s, call, w);
      RunKeepsIdle(s.drivers, b, n, schedule);
      RunKeepsIdle(s.drivers, Run(s.drivers, b, schedule), n, meanwhile);
      RunLeavesIdle(s.drivers, b, n, schedule);
      RunLeavesIdle(s.drivers, Run(s.drivers, b, schedule), n, meanwhile);
    case State(meanwhile, _) =>
      RunKeepsIdle(s.drivers, w, n, meanwhile);
      RunLeavesIdle(s.drivers, w, n, meanwhile);
    case Changed(_) =>
    case Replaced(_) =>
  }

  predicate SparedUntil<D, C>(s: Setup<D, C>, t: Trace<D, C>, n: string, k: nat, j: nat)
    requires s.Valid() && j <= |t.rounds|
  {
    forall i :: k <= i < j ==> Spares(s, t.rounds[i], n)
  }

  lemma {:induction false} SparedRounds<D, C>(s: Setup<D, C>, t: Trace<D, C>, n: string, k: nat, j: nat)
    requires Happens(s, t) && k <= j <= |t.rounds| && Idle(t.worlds[k], n) && SparedUntil(s, t, n, k, j)
    ensures Idle(t.worlds[j], n) && DeviceAt(t, n, j) == DeviceAt(t, n, k)
  {
    if k < j {
      SparedRounds(s, t, n, k, j - 1);
      assert Follows(s, t.worlds[j - 1], t.rounds[j - 1], t.worlds[j]);
      SparedRound(s, t.worlds[j - 1], t.rounds[j - 1], n);
    }
  }

  /** A member shows what it last reported exactly if the object it reported did not change while it was the member's;
      in particular if the member was idle and every round until then spared it. */
  lemma {:induction false} LastReportIsShownIff<D, C>(s: Setup<D, C>, t: Trace<D, C>, n: string, k: nat, m: nat)
    requires Happens(s, t) && m <= |t.rounds| && LastAnswered(s, t, n, k, m)
    ensures ShownAt(s, t, n, m) == DeviceAt(t, n, k) <==>
            DeviceAt(t, n, Until(t.rounds, n, k, m)) == DeviceAt(t, n, k)
    ensures Idle(t.worlds[k], n) && SparedUntil(s, t, n, k, Until(t.rounds, n, k, m)) ==>
            ShownAt(s, t, n, m) == DeviceAt(t, n, k)
  {
    ObjectIsShown(s, t, n, k, m);
    var until := Until(t.rounds, n, k, m);
    if Idle(t.worlds[k], n) && SparedUntil(s, t, n, k, until) {
      SparedRounds(s, t, n, k, until);
    }
  }

  /** A member that once answered, and has not replaced its object since, shows the state it has now. */
  lemma {:induction false} LiveIsShown<D, C>(s: Setup<D, C>, t: Trace<D, C>, n: string, k: nat, m: nat)
    requires Happens(s, t) && k <= m <= |t.rounds| && Answered(s, t, n, k)
    requires forall i :: k <= i < m ==> !Replaces(t.rounds[i], n)
    ensures ShownAt(s, t, n, m) == DeviceAt(t, n, m)
  {
    LiveIsHeld(s, t, n, k, m);
    MemberStays(s, t, n, k, m);
  }

  lemma {:induction false} LiveIsHeld<D, C>(s: Setup<D, C>, t: Trace<D, C>, n: string, k: nat, m: nat)
    requires t.Shaped() && k <= m <= |t.rounds| && Answered(s, t, n, k)
    requires forall i :: k <= i < m ==> !Replaces(t.rounds[i], n)
    ensures Get(SeenAt(t, s.names, m), n) == Some(Live)
  {
    if k < m { LiveIsHeld(s, t, n, k, m - 1); }
    if m > 0 { SeenStep(t.worlds[m - 1], t.worlds[m], s.names, SeenAt(t, s.names, m - 1), t.rounds[m - 1], n); }
  }

  lemma {:induction false} RunAppend<D, C>(drivers: Drivers<D, C>, w: World<D, C>, a: seq<nat>, b: seq<nat>)
    ensures Run(drivers, Run(drivers, w, a), b) == Run(drivers, w, a + b)
    decreases |a|
  {
    if a == [] {
      EmptyFirst(b);
    } else {
      assert (a + b)[1..] == a[1..] + b;
      RunAppend(drivers, StepTask(drivers, w, a[0]), a[1..], b);
    }
  }

  /** The i-th participant of the m-th round, a command, is done with it. */
  predicate IsDone<D, C>(s: Setup<D, C>, t: Trace<D, C>, m: nat, i: nat, n: string)
    requires s.Valid() && t.Shaped()
  {
    && 0 < m <= |t.rounds| && t.rounds[m - 1].Command?
    && Participant(s, t.rounds[m - 1].call, t.worlds[m - 1], i, n)
    && var future, tasks := |t.worlds[m - 1].tasks| + i, t.worlds[m].tasks;
       future < |tasks| && !tasks[future].status.Running?
  }

  /** After any run that ends with a command, a participant that ever answered a read, and has not replaced its object
      since, shows the device its own translated operation alone makes of the one it had before once its future is
      done, whether or not it answers the read that follows. */
  lemma {:induction false} MemberShowsItsOperation<D, C>(
      s: Setup<D, C>, t: Trace<D, C>, k: nat, m: nat, i: nat, n: string)
    requires Happens(s, t) && k <= m <= |t.rounds| && Answered(s, t, n, k)
    requires forall i :: k <= i < m ==> !Replaces(t.rounds[i], n)
    requires IsDone(s, t, m, i, n)
    ensures ShownAt(s, t, n, m) ==
            Some(Outcome(s, t.rounds[m - 1].call, n, t.worlds[m - 1].devices[n]).0)
  {
    var start, last := t.worlds[m - 1], t.rounds[m - 1];
    assert Follows(s, start, last, t.worlds[m]);
    ParticipantGetsItsOperation(s, last.call, start, i, n, last.schedule + last.meanwhile);
    RunAppend(s.drivers, Begun(s, last.call, start), last.schedule, last.meanwhile);
    LiveIsShown(s, t, n, k, m);
  }

  // ---- a failed load shows, although nothing was read after it ----

  const LOAD := CallLoadFilter(Some("1"), Entry("digest", 0.0), 0.0)
  const EMPTY: World<string, string> := World(map["sub1" := "Empty"], [])
  const FAILED: World<string, string> := World(map["sub1" := "ERROR"], [Task("sub1", Raised("timed out"))])

  function SoleSubwoofer(): Setup<string, string> {
    Setup(["sub1"], map["sub1" := Minidsp], map["sub1" := MemberSpec([], map[], {}, 0.0)],
          Drivers((n: string, call: Call) => ["ERROR"], (c: string, d: string) => (c, Some("timed out"))))
  }

  lemma {:induction false} SoleLoadFails()
    ensures SoleSubwoofer().Valid() && AfterRound(SoleSubwoofer(), EMPTY, Command(LOAD, [0], [], {})) == FAILED
  {
    var s := SoleSubwoofer();
    assert s.Participants(LoadFilter, 1) == [] + ["sub1"] by { assert s.Participants(LoadFilter, 0) == []; }
    var b := s.Submitted(LOAD, ["sub1"], EMPTY);
    assert b.tasks == [s.NewTask(LOAD, "sub1")];
    assert [0][1..] == [];
    assert Run(s.drivers, b, [0]) == Run(s.drivers, StepTask(s.drivers, b, 0), []);
  }

  /** The member answered a read when it was empty; then a load timed out, which set its state to an error in place, and
      so did the read after it. The composite shows the error, not what was last reported. */
  lemma {:induction false} FailedLoadShows()
    ensures
      var s, t := SoleSubwoofer(), Trace({"sub1"}, [EMPTY, FAILED], [Command(LOAD, [0], [], {})]);
      && Happens(s, t) && LastAnswered(s, t, "sub1", 0, 1)
      && ShownAt(s, t, "sub1", 0) == Some("Empty") && ShownAt(s, t, "sub1", 1) == Some("ERROR")
  {
    var s, t := SoleSubwoofer(), Trace({"sub1"}, [EMPTY, FAILED], [Command(LOAD, [0], [], {})]);
    SoleLoadFails();
    assert Follows(s, EMPTY, t.rounds[0], FAILED);
    assert Answered(s, t, "sub1", 0);
    ObjectIsShown(s, t, "sub1", 0, 1);
    ObjectIsShown(s, t, "sub1", 0, 0);
  }

  // ---- translated calls ----

  /** What stands for a channel on a member: what the member's map says, or the channel itself where it says nothing. */
  predicate StandsFor(spec: MemberSpec, c: int, m: int) {
    if c in spec.channelMap then spec.channelMap[c] == Some(m) else m == c
  }

  /** Each channel of a list is translated in its place. */
  predicate MapsTo(spec: MemberSpec, channels: seq<int>, translated: seq<int>) {
    |translated| == |channels| && forall i :: 0 <= i < |channels| ==> StandsFor(spec, channels[i], translated[i])
  }

  /** No channel of a list is mapped to something that is no integer. */
  predicate AllMapped(spec: MemberSpec, channels: seq<int>) {
    forall i :: 0 <= i < |channels| && channels[i] in spec.channelMap ==> spec.channelMap[channels[i]].Some?
  }

  lemma {:induction false} ChannelsTranslate(spec: MemberSpec, channels: seq<int>)
    ensures TranslateChannels(spec, channels).Ok? <==> AllMapped(spec, channels)
    ensures TranslateChannels(spec, channels).Ok? ==> MapsTo(spec, channels, TranslateChannels(spec, channels).value)
  {
    if channels != [] {
      ChannelsTranslate(spec, channels[1..]);
      assert channels == [channels[0]] + channels[1..];
    }
  }

  /** A pair of a list of pairs is the last with its key. */
  predicate LastPair(items: seq<(string, string)>, i: nat, key: string) {
    i < |items| && items[i].0 == key && forall j :: i < j < |items| ==> items[j].0 != key
  }

  /** A call without a slot stays so; a device with one slot is called with that; any other with what the last pair for
      the slot says, or the slot itself if there is none. */
  ghost predicate SlotStandsFor(t: DeviceType, spec: MemberSpec, slot: Option<string>, s: Option<string>) {
    if slot.None? then s.None? else
    match t
    case Htp1 => s == Some("HTP1")
    case StormAudio => s == Some("StormAudio")
    case Qsys => s == Some("QSYS")
    case Camilla => s == Some("CamillaDSP")
    case Reaper => s == Some("REAPER")
    case _ =>
      && (forall i: nat :: LastPair(spec.slotMap, i, slot.value) ==> s == Some(spec.slotMap[i].1))
      && ((forall i :: 0 <= i < |spec.slotMap| ==> spec.slotMap[i].0 != slot.value) ==> s == slot)
  }

  lemma {:induction false} LastPairDecides(items: seq<(string, string)>, i: nat, key: string)
    requires LastPair(items, i, key)
    ensures key in Dict(items) && Dict(items)[key] == items[i].1
  {
    var n := |items| - 1;
    if i < n {
      assert LastPair(items[..n], i, key);
      LastPairDecides(items[..n], i, key);
    }
  }

  lemma {:induction false} SlotTranslates(t: DeviceType, spec: MemberSpec, slot: Option<string>)
    ensures SlotStandsFor(t, spec, slot, TranslateSlot(t, spec, slot))
  {
    if slot.Some? && FixedSlotId(t).None? {
      var items, key := spec.slotMap, slot.value;
      DictHas(items, key);
      forall i: nat | LastPair(items, i, key)
        ensures key in Dict(items) && Dict(items)[key] == items[i].1
      {
        LastPairDecides(items, i, key);
      }
    }
  }

  /** The channels a call names. */
  function ChannelsOf(call: Call): seq<int> {
    match call
    case CallLoadBiquads(_, _, inputs, outputs, _) => inputs + outputs
    case CallSendCommands(_, inputs, outputs, _) => inputs + outputs
    case CallMute(_, c) => if c.Some? then [c.value] else []
    case CallUnmute(_, c) => if c.Some? then [c.value] else []
    case CallSetGain(_, c, _) => if c.Some? then [c.value] else []
    case _ => []
  }

  predicate ChannelStandsFor(spec: MemberSpec, c: Option<int>, m: Option<int>) {
    if c.None? then m.None? else m.Some? && StandsFor(spec, c.value, m.value)
  }

  /** The same operation, with everything it carries, on a member's own slot and channels; only the volume adjustment
      of an entry is moved by the member's. */
  ghost predicate SameOperation(t: DeviceType, spec: MemberSpec, call: Call, r: Call) {
    && SlotStandsFor(t, spec, call.slot, r.slot)
    && match call
       case CallActivate(_) => r.CallActivate?
       case CallLoadFilter(_, entry, mv) =>
         r.CallLoadFilter? && r.entry.digest == entry.digest && r.entry.mvAdjust == entry.mvAdjust + spec.mvAdjust
             && r.mv == mv
       case CallClearFilter(_) => r.CallClearFilter?
       case CallLoadBiquads(_, overwrite, inputs, outputs, payload) =>
         r.CallLoadBiquads? && r.overwrite == overwrite && r.payload == payload
         && MapsTo(spec, inputs, r.inputs) && MapsTo(spec, outputs, r.outputs)
       case CallSendCommands(_, inputs, outputs, payload) =>
         r.CallSendCommands? && r.payload == payload && MapsTo(spec, inputs, r.inputs)
             && MapsTo(spec, outputs, r.outputs)
       case CallMute(_, c) => r.CallMute? && ChannelStandsFor(spec, c, r.channel)
       case CallUnmute(_, c) => r.CallUnmute? && ChannelStandsFor(spec, c, r.channel)
       case CallSetGain(_, c, gain) => r.CallSetGain? && r.gain == gain && ChannelStandsFor(spec, c, r.channel)
  }

  lemma {:induction false} AllMappedAppend(spec: MemberSpec, a: seq<int>, b: seq<int>)
    ensures AllMapped(spec, a + b) <==> AllMapped(spec, a) && AllMapped(spec, b)
  {
    if AllMapped(spec, a + b) {
      assert forall i :: 0 <= i < |a| ==> (a + b)[i] == a[i];
      assert forall i :: 0 <= i < |b| ==> (a + b)[|a| + i] == b[i];
    }
  }

  /** A member is asked to do the same operation on its own slot and channels; it raises exactly if a channel named
      maps to no integer. */
  lemma {:induction false} TranslationKeepsOperation(t: DeviceType, spec: MemberSpec, call: Call)
    ensures Translate(t, spec, call).Ok? <==> AllMapped(spec, ChannelsOf(call))
    ensures Translate(t, spec, call).Ok? ==> SameOperation(t, spec, call, Translate(t, spec, call).value)
  {
    SlotTranslates(t, spec, call.slot);
    if call.CallLoadBiquads? || call.CallSendCommands? {
      ChannelsTranslate(spec, call.inputs);
      ChannelsTranslate(spec, call.outputs);
      AllMappedAppend(spec, call.inputs, call.outputs);
    } else if call.CallMute? || call.CallUnmute? || call.CallSetGain? {
      if call.channel.Some? { assert ChannelsOf(call)[0] == call.channel.value; }
    }
  }

  /** A member whose map takes channel 1 to 3 mutes its third channel for the composite's first. */
  lemma {:induction false} MappedChannelIsMuted(spec: MemberSpec)
    requires spec.channelMap == map[1 := Some(3)] && spec.slotMap == []
    ensures Translate(Minidsp, spec, CallMute(Some("1"), Some(1))) == Ok(CallMute(Some("1"), Some(3)))
  {
    TranslationKeepsOperation(Minidsp, spec, CallMute(Some("1"), Some(1)));
  }

  // ---- slots as shown ----

  predicate DistinctKeys<K(==), V>(items: seq<(K, V)>) {
    forall i, j :: 0 <= i < j < |items| ==> items[i].0 != items[j].0
  }

  lemma {:induction false} DictHas<K, V>(items: seq<(K, V)>, k: K)
    ensures k in Dict(items) <==> exists i :: 0 <= i < |items| && items[i].0 == k
    ensures k in Dict(items) ==> exists i :: 0 <= i < |items| && items[i] == (k, Dict(items)[k])
  {
    if items != [] {
      var front := items[..|items| - 1];
      DictHas(front, k);
      if i :| 0 <= i < |front| && front[i].0 == k { assert items[i].0 == k; }
      if i :| 0 <= i < |items| && items[i].0 == k { assert i == |front| || front[i].0 == k; }
      if k in Dict(items) && items[|front|].0 != k {
        var i :| 0 <= i < |front| && front[i] == (k, Dict(front)[k]);
        assert items[i] == (k, Dict(items)[k]);
      }
    }
  }

  lemma {:induction false} DictAt<K, V>(items: seq<(K, V)>, i: nat)
    requires DistinctKeys(items) && i < |items|
    ensures items[i].0 in Dict(items) && Dict(items)[items[i].0] == items[i].1
  {
    DictHas(items, items[i].0);
    var j :| 0 <= j < |items| && items[j] == (items[i].0, Dict(items)[items[i].0]);
    assert i == j;
  }

  predicate IsTarget(spec: MemberSpec, id: string) { exists i :: 0 <= i < |spec.slotMap| && spec.slotMap[i].1 == id }

  predicate IsKey(spec: MemberSpec, id: string) { exists i :: 0 <= i < |spec.slotMap| && spec.slotMap[i].0 == id }

  /** A slot the composite shows for a member's own slot stands for that slot again in a command, exactly if the
      member's slot is one the map leads to, or one the map does not redirect. */
  lemma {:induction false} ShownSlotRoundTripIff(t: DeviceType, spec: MemberSpec, id: string)
    requires FixedSlotId(t).None? && DistinctKeys(spec.slotMap)
    ensures TranslateSlot(t, spec, Some(DisplaySlot(spec, id))) == Some(id) <==> IsTarget(spec, id) || !IsKey(spec, id)
  {
    var swapped := seq(|spec.slotMap|, i requires 0 <= i < |spec.slotMap| => (spec.slotMap[i].1, spec.slotMap[i].0));
    DictHas(swapped, id);
    if id in spec.InverseSlotMap() {
      var i :| 0 <= i < |swapped| && swapped[i] == (id, spec.InverseSlotMap()[id]);
      DictAt(spec.slotMap, i);
      assert spec.slotMap[i].1 == id;
    } else {
      DictHas(spec.slotMap, id);
      forall i | 0 <= i < |spec.slotMap|
        ensures spec.slotMap[i].1 != id
      {
        assert swapped[i].0 == spec.slotMap[i].1;
      }
    }
  }

  /** The documented two-slot map on a device with more slots shows two slots under one id. */
  lemma {:induction false} PartialMapRepeatsIds(spec: MemberSpec)
    requires spec.slotMap == [("1", "3"), ("2", "4")]
    ensures DisplaySlot(spec, "3") == DisplaySlot(spec, "1")
    ensures TranslateSlot(Minidsp, spec, Some(DisplaySlot(spec, "1"))) != Some("1")
  {
    assert DistinctKeys(spec.slotMap);
    assert "1"[0] != "2"[0] && "3"[0] != "4"[0] && "1"[0] != "3"[0] && "1"[0] != "4"[0];
    ShownSlotRoundTripIff(Minidsp, spec, "1");
    assert spec.slotMap[0].0 == "1";
    var swapped := seq(|spec.slotMap|, i requires 0 <= i < |spec.slotMap| => (spec.slotMap[i].1, spec.slotMap[i].0));
    DictHas(swapped, "1");
    DictAt(swapped, 0);
  }
}
