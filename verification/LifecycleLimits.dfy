/** Where the guarantees of the protocol end: which slips lose a run, and how often a run that has
    left QUEUED can still be launched. */
module LifecycleLimits {
  import opened Statuses
  import opened Lifecycle
  import opened LifecycleInvariants

  // ---- Every kind of slip loses a run ----

  const RUN: RunId := "eks-1"

  ghost predicate Quiet(s: World) {
    && (forall f :: s.FeederOf(f) == AtRest)
    && (forall w :: s.SubmitterOf(w) == Idle)
  }

  lemma StaysQuiet(s: World, t: World)
    requires Quiet(s) && (t.feeders == s.feeders || t.feeders == s.feeders[0 := AtRest])
    requires t.submitters == s.submitters || t.submitters == s.submitters[0 := Idle]
    ensures Quiet(t)
  {
    assert forall f :: t.FeederOf(f) == s.FeederOf(f) || t.FeederOf(f) == AtRest;
    assert forall w :: t.SubmitterOf(w) == s.SubmitterOf(w) || t.SubmitterOf(w) == Idle;
  }

  /** The run is stored as QUEUED, but no message, feeder, worker or job is there to launch it. */
  ghost predicate Forgotten(s: World, r: RunId) {
    && s.HasStatus(r, Queued) && r !in s.cloud.jobs
    && r !in s.launched && r !in s.abandoned && s.queue.live == {}
    && Quiet(s)
  }

  lemma ForgottenIsLost(s: World, r: RunId)
    requires Forgotten(s, r)
    ensures Lost(s, r)
  {}

  /** `trace` is a careful schedule from `s` to `t`. */
  predicate Leads(s: World, trace: seq<Action>, t: World) {
    Schedule(s, trace) && AllCareful(s, trace) && After(s, trace) == t
  }

  lemma Step(s: World, trace: seq<Action>, t: World, a: Action)
    requires Leads(s, trace, t) && Enabled(t, a) && Careful(t, a)
    ensures Leads(s, trace + [a], Apply(t, a))
  {
    Prepend(t, a, []);
    Concatenate(s, trace, [a]);
  }

  lemma Then(s: World, trace: seq<Action>, t: World, more: seq<Action>, u: World)
    requires Leads(s, trace, t) && Leads(t, more, u)
    ensures Leads(s, trace + more, u)
  {
    Concatenate(s, trace, more);
  }

  /** A new run with its first message on the queue and everybody at rest. */
  ghost predicate OneMessage(s: World) {
    && s.HasStatus(RUN, Queued) && s.store[RUN].engine == Eks && s.store[RUN].kind == Definition
    && s.queue == Queue([RUN], {0}) && s.cloud == Start().cloud && s.launched == s.abandoned == {} && Quiet(s)
  }

  lemma SendOne() returns (trace: seq<Action>, s: World)
    ensures Leads(Start(), trace, s) && OneMessage(s)
  {
    trace, s := [], Start();
    var create, enqueue, stamp := Feed(0, Create(RUN, Eks, Definition)), Feed(0, Enqueue), Feed(0, Stamp);
    Step(Start(), trace, s, create);
    trace, s := trace + [create], Apply(s, create);
    Step(Start(), trace, s, enqueue);
    trace, s := trace + [enqueue], Apply(s, enqueue);
    Step(Start(), trace, s, stamp);
    trace, s := trace + [stamp], Apply(s, stamp);
  }

  /** Worker 0 takes a message up to the point where it calls the back end. */
  lemma Prepare(s: World, m: MessageId) returns (trace: seq<Action>, t: World)
    requires s.SubmitterOf(0) == Idle && m < |s.queue.sent| && s.queue.sent[m] == RUN
    requires s.HasStatus(RUN, Queued) && s.store[RUN].kind == Definition
    ensures Leads(s, trace, t) && t == s.Submitting(0, Prepared(m))
  {
    trace, t := [], s;
    var receive, read, find := Submit(0, Receive(m)), Submit(0, ReadRow), Submit(0, FindExecutable(Found));
    Step(s, trace, t, receive);
    trace, t := trace + [receive], Apply(t, receive);
    Step(s, trace, t, read);
    trace, t := trace + [read], Apply(t, read);
    Step(s, trace, t, find);
    trace, t := trace + [find], Apply(t, find);
    assert t.submitters == s.submitters[0 := Prepared(m)];
  }

  /** The run is sent to retry, and message 0 is delivered before the retry worker comes by: it is
      acknowledged unlaunched. */
  lemma ThrowAway(s: World) returns (trace: seq<Action>, t: World)
    requires RUN in s.store && s.queue == Queue([RUN], {0}) && Quiet(s)
    ensures Leads(s, trace, t)
    ensures t == s.Update(RUN, NeedsRetry).(queue := Queue([RUN], {}), submitters := s.submitters[0 := Idle])
    ensures Quiet(t)
  {
    trace, t := [], s;
    assert s.SubmitterOf(0) == Idle;
    var retry, receive := Request(RUN, NeedsRetry), Submit(0, Receive(0));
    var read, ack := Submit(0, ReadRow), Submit(0, Ack);
    Step(s, trace, t, retry);
    trace, t := trace + [retry], Apply(t, retry);
    Step(s, trace, t, receive);
    trace, t := trace + [receive], Apply(t, receive);
    Step(s, trace, t, read);
    trace, t := trace + [read], Apply(t, read);
    Step(s, trace, t, ack);
    trace, t := trace + [ack], Apply(t, ack);
    assert t.submitters == s.submitters[0 := Idle];
    StaysQuiet(s, t);
  }

  /** The first attempt creates the job and does not hear of it; the message stays. */
  lemma LaunchUnheard(s: World) returns (trace: seq<Action>, t: World)
    requires OneMessage(s)
    ensures Leads(s, trace, t)
    ensures t == s.(cloud := s.cloud.CreateJob(RUN), launched := {RUN}, submitters := s.submitters[0 := Idle])
    ensures Quiet(t)
  {
    assert s.SubmitterOf(0) == Idle;
    trace, t := Prepare(s, 0);
    var execute := Submit(0, Execute(LostReply));
    Step(s, trace, t, execute);
    trace, t := trace + [execute], Apply(t, execute);
    assert t.submitters == s.submitters[0 := Idle];
    StaysQuiet(s, t);
  }

  /** `before` is careful, `step` is the slip, `rest` is careful, and then the run is lost. */
  ghost predicate Loses(slip: Slip, before: seq<Action>, step: Action, rest: seq<Action>) {
    && Schedule(Start(), before) && AllCareful(Start(), before)
    && Enabled(After(Start(), before), step) && SlipOf(After(Start(), before), step) == slip
    && var s := Apply(After(Start(), before), step);
       Schedule(s, rest) && AllCareful(s, rest) && Forgotten(After(s, rest), RUN)
  }

  lemma EnqueueSlipLoses() returns (before: seq<Action>, step: Action)
    ensures Loses(EnqueueSlip, before, step, [])
  {
    before, step := [Feed(0, Create(RUN, Eks, Definition))], Feed(0, CallFails);
    Prepend(Start(), before[0], []);
  }

  lemma ReadSlipLoses(sent: seq<Action>, s: World) returns (before: seq<Action>, step: Action, rest: seq<Action>)
    requires Leads(Start(), sent, s) && OneMessage(s)
    ensures Loses(ReadSlip, before, step, rest)
  {
    var receive, ack := Submit(0, Receive(0)), Submit(0, Ack);
    Step(Start(), sent, s, receive);
    before, step, rest := sent + [receive], Submit(0, ReadRowFails), [ack];
    var t := Apply(Apply(s, receive), step);
    Prepend(t, ack, []);
    assert Apply(t, ack).submitters == s.submitters[0 := Idle];
    StaysQuiet(s, Apply(t, ack));
  }

  /** The executable is there, but reading it fails once. */
  lemma ExecutableSlipLoses(sent: seq<Action>, s: World) returns (before: seq<Action>, step: Action, rest: seq<Action>)
    requires Leads(Start(), sent, s) && OneMessage(s)
    ensures Loses(ExecutableSlip, before, step, rest)
  {
    assert s.SubmitterOf(0) == Idle;
    var receive, read := Submit(0, Receive(0)), Submit(0, ReadRow);
    var t := Apply(s, receive);
    Step(Start(), sent, s, receive);
    Step(Start(), sent + [receive], t, read);
    before, step := sent + [receive] + [read], Submit(0, FindExecutable(LookupFails));
    var u := Apply(Apply(t, read), step);
    assert u.submitters == s.submitters[0 := Acking(0)];
    rest := Finish(s, u, 0);
  }

  lemma WriteSlipLoses(sent: seq<Action>, s: World) returns (before: seq<Action>, step: Action, rest: seq<Action>)
    requires Leads(Start(), sent, s) && OneMessage(s)
    ensures Loses(WriteSlip, before, step, rest)
  {
    assert s.SubmitterOf(0) == Idle;
    var more, t := Met(s, 0, Invalid);
    Then(Start(), sent, s, more, t);
    before, step := sent + more, Submit(0, StoreLaunchFails);
    var u := Apply(t, step);
    assert u.submitters == s.submitters[0 := Acking(0)];
    rest := Finish(s, u, 0);
  }

  /** Worker 0 takes a message, calls the back end, and has not stored the answer yet. */
  lemma Met(s: World, m: MessageId, outcome: Outcome) returns (trace: seq<Action>, t: World)
    requires s.SubmitterOf(0) == Idle && m < |s.queue.sent| && s.queue.sent[m] == RUN
    requires s.HasStatus(RUN, Queued) && s.store[RUN].kind == Definition && s.store[RUN].engine == Eks
    requires outcome == Invalid || (outcome == AlreadyExists && RUN in s.cloud.jobs && RUN in s.launched)
    ensures Leads(s, trace, t) && t == s.Submitting(0, Reaction(m, outcome))
  {
    var first, u := Prepare(s, m);
    var execute := Submit(0, Execute(outcome));
    Step(s, first, u, execute);
    trace, t := first + [execute], Apply(u, execute);
    assert t.submitters == s.submitters[0 := Reaction(m, outcome)];
  }

  lemma RequestSlipLoses(sent: seq<Action>, s: World) returns (before: seq<Action>, step: Action)
    requires Leads(Start(), sent, s) && OneMessage(s)
    ensures Loses(RequestSlip, before, step, [])
  {
    var more, t := ThrowAway(s);
    Then(Start(), sent, s, more, t);
    before, step := sent + more, Request(RUN, Queued);
    StaysQuiet(t, Apply(t, step));
  }

  lemma ReportSlipLoses(sent: seq<Action>, s: World) returns (before: seq<Action>, step: Action)
    requires Leads(Start(), sent, s) && OneMessage(s)
    ensures Loses(ReportSlip, before, step, [])
  {
    var observe := Watch(0, Observe(RUN));
    Step(Start(), sent, s, observe);
    StaysQuiet(s, Apply(s, observe));
    var more, t := ThrowAway(Apply(s, observe));
    Then(Start(), sent + [observe], Apply(s, observe), more, t);
    before, step := sent + [observe] + more, Watch(0, Report(Queued));
    StaysQuiet(t, Apply(t, step));
  }

  /** The end of a submission that met a job: the report, if it is not stored yet, and the
      acknowledgement; later the job goes. */
  lemma Finish(s: World, t: World, m: MessageId) returns (steps: seq<Action>)
    requires Quiet(s) && t.SubmitterOf(0) == Acking(m) && (t.feeders == s.feeders || t.feeders == s.feeders[0 := AtRest])
    requires t.submitters == s.submitters[0 := Acking(m)] && m < |t.queue.sent| && t.queue.sent[m] == RUN
    requires t.queue.live == {m} && t.HasStatus(RUN, Queued) && RUN !in t.launched && RUN !in t.abandoned
    ensures Schedule(t, steps) && AllCareful(t, steps) && Forgotten(After(t, steps), RUN)
  {
    var ack, clear := Submit(0, Ack), DeleteJob(RUN);
    var u := Apply(t, ack);
    Prepend(u, clear, []);
    Prepend(t, ack, [clear]);
    steps := [ack] + [clear];
    assert Apply(u, clear).submitters == s.submitters[0 := Idle];
    StaysQuiet(s, Apply(u, clear));
  }

  /** The message comes again, the job is met, and the run is sent to retry before that is stored. */
  lemma LaunchSlipLoses(sent: seq<Action>, s: World) returns (before: seq<Action>, step: Action, rest: seq<Action>)
    requires Leads(Start(), sent, s) && OneMessage(s)
    ensures Loses(LaunchSlip, before, step, rest)
  {
    var first, t := LaunchUnheard(s);
    Then(Start(), sent, s, first, t);
    var again, u := Met(t, 0, AlreadyExists);
    Then(Start(), sent + first, t, again, u);
    var retry := Request(RUN, NeedsRetry);
    Step(Start(), sent + first + again, u, retry);
    before, step := sent + first + again + [retry], Submit(0, StoreLaunch);
    var v := Apply(Apply(u, retry), step);
    assert v.submitters == t.submitters[0 := Acking(0)];
    rest := Finish(t, v, 0);
  }

  /** The retry worker sends the run again. */
  lemma SendAgain(s: World) returns (trace: seq<Action>, t: World)
    requires s.HasStatus(RUN, NeedsRetry) && s.store[RUN].engine == Eks && s.queue == Queue([RUN], {}) && Quiet(s)
    ensures Leads(s, trace, t) && Quiet(t)
    ensures t == s.Update(RUN, Queued).(queue := Queue([RUN, RUN], {1}), feeders := s.feeders[0 := AtRest])
  {
    trace, t := [], s;
    assert s.FeederOf(0) == AtRest;
    var list, recycle, enqueue := Feed(0, ListForRetry([RUN])), Feed(0, Recycle), Feed(0, Enqueue);
    Step(s, trace, t, list);
    trace, t := trace + [list], Apply(t, list);
    Step(s, trace, t, recycle);
    trace, t := trace + [recycle], Apply(t, recycle);
    Step(s, trace, t, enqueue);
    trace, t := trace + [enqueue], Apply(t, enqueue);
    assert t.feeders == s.feeders[0 := AtRest];
    StaysQuiet(s, t);
  }

  /** The first attempt has left a job behind, and the second one is about to be submitted. */
  lemma SecondAttempt(s: World) returns (trace: seq<Action>, t: World, u: World)
    requires OneMessage(s)
    ensures Leads(s, trace, t) && Quiet(u) && t == u.Submitting(0, Prepared(1))
    ensures u.HasStatus(RUN, Queued) && u.store[RUN].kind == Definition && u.store[RUN].engine == Eks
    ensures u.queue == Queue([RUN, RUN], {1}) && RUN in u.cloud.jobs && u.launched == u.abandoned == {}
  {
    var first, t1 := LaunchUnheard(s);
    var second, t2 := ThrowAway(t1);
    Then(s, first, t1, second, t2);
    var third;
    third, u := SendAgain(t2);
    Then(s, first + second, t2, third, u);
    var fourth;
    fourth, t := Prepare(u, 1);
    Then(s, first + second + third, u, fourth, t);
    trace := first + second + third + fourth;
  }

  /** The job of the first attempt is still there when the second one is submitted. */
  lemma OldJobSlipLoses(sent: seq<Action>, s: World) returns (before: seq<Action>, step: Action, rest: seq<Action>)
    requires Leads(Start(), sent, s) && OneMessage(s)
    ensures Loses(OldJobSlip, before, step, rest)
  {
    var more, t, u := SecondAttempt(s);
    Then(Start(), sent, s, more, t);
    before, step := sent + more, Submit(0, Execute(AlreadyExists));
    assert Apply(t, step).submitters == u.submitters[0 := Launched(1, Queued)];
    rest := ReportOldJob(u, Apply(t, step));
  }

  lemma ReportOldJob(s: World, t: World) returns (rest: seq<Action>)
    requires Quiet(s) && t == s.Submitting(0, Launched(1, Queued)) && t.queue == Queue([RUN, RUN], {1})
    requires t.HasStatus(RUN, Queued) && t.launched == t.abandoned == {}
    ensures Schedule(t, rest) && AllCareful(t, rest) && Forgotten(After(t, rest), RUN)
  {
    var store := Submit(0, StoreLaunch);
    var u := Apply(t, store);
    assert u.submitters == s.submitters[0 := Acking(1)];
    var end := Finish(s, u, 1);
    Prepend(t, store, end);
    rest := [store] + end;
  }

  /** Each slip on its own, in an otherwise careful schedule, loses a run for good: in the first
      attempt of a run or, the last two, in its second. */
  lemma OneSlipLosesARun(slip: Slip) returns (before: seq<Action>, step: Action, rest: seq<Action>)
    requires slip != NoSlip
    ensures Loses(slip, before, step, rest)
  {
    var sent, s := SendOne();
    rest := [];
    match slip
    case EnqueueSlip => before, step := EnqueueSlipLoses();
    case ReadSlip => before, step, rest := ReadSlipLoses(sent, s);
    case ExecutableSlip => before, step, rest := ExecutableSlipLoses(sent, s);
    case WriteSlip => before, step, rest := WriteSlipLoses(sent, s);
    case RequestSlip => before, step := RequestSlipLoses(sent, s);
    case ReportSlip => before, step := ReportSlipLoses(sent, s);
    case LaunchSlip => before, step, rest := LaunchSlipLoses(sent, s);
    case OldJobSlip => before, step, rest := OldJobSlipLoses(sent, s);
  }

  /** No schedule in which only these kinds of slips happen ever loses a run. */
  ghost predicate Safe(kinds: set<Slip>) {
    forall trace, r | Schedule(Start(), trace) && SlipsOf(Start(), trace) <= kinds :: !Lost(After(Start(), trace), r)
  }

  /** Nothing ever gets lost if and only if no kind of slip may happen at all. */
  lemma SafeIffNoSlips(kinds: set<Slip>)
    requires NoSlip !in kinds
    ensures Safe(kinds) <==> kinds == {}
  {
    if kinds == {} {
      forall trace, r | Schedule(Start(), trace) && SlipsOf(Start(), trace) <= kinds
        ensures !Lost(After(Start(), trace), r)
      {
        CarefulIff(Start(), trace);
        ScheduleLosesNothing(Start(), trace);
      }
    } else {
      var slip :| slip in kinds;
      var before, step, rest := OneSlipLosesARun(slip);
      var trace := SlipTrace(slip, before, step, rest);
      assert SlipsOf(Start(), trace) <= kinds && Lost(After(Start(), trace), RUN);
    }
  }

  lemma SlipTrace(slip: Slip, before: seq<Action>, step: Action, rest: seq<Action>) returns (trace: seq<Action>)
    requires Loses(slip, before, step, rest)
    ensures Schedule(Start(), trace) && SlipsOf(Start(), trace) <= {slip} && Lost(After(Start(), trace), RUN)
  {
    var s := After(Start(), before);
    var tail := [step] + rest;
    assert tail[1..] == rest;
    CarefulIff(Start(), before);
    CarefulIff(Apply(s, step), rest);
    assert Schedule(s, tail) && After(s, tail) == After(Apply(s, step), rest);
    assert SlipsOf(s, tail) <= {slip};
    Concatenate(Start(), before, tail);
    SlipsOfBoth(Start(), before, tail);
    ForgottenIsLost(After(s, tail), RUN);
    trace := before + tail;
  }

  /** A slip may do no harm: a handler writes a stale QUEUED over NEEDS_RETRY, but the first message
      is still there and gets the run launched. */
  lemma SlipMayBeHarmless(sent: seq<Action>, s: World)
    requires Leads(Start(), sent, s) && OneMessage(s)
    ensures var observe, retry, report := Watch(0, Observe(RUN)), Request(RUN, NeedsRetry), Watch(0, Report(Queued));
            && var t := Apply(Apply(s, observe), retry);
               SlipOf(t, report) == ReportSlip && Apply(t, report).HasStatus(RUN, Queued) && !Lost(Apply(t, report), RUN)
  {
    var t := Apply(Apply(s, Watch(0, Observe(RUN))), Request(RUN, NeedsRetry));
    var u := Apply(t, Watch(0, Report(Queued)));
    assert forall w :: u.SubmitterOf(w) == s.SubmitterOf(w) == Idle;
    assert Waiting(u, 0, RUN);
  }

  // ---- How often a run that has left QUEUED is still launched ----

  /** Worker `w` has read QUEUED for the run and has not called the back end yet. */
  predicate Committed(s: World, w: ActorId, r: RunId) {
    var pc := s.SubmitterOf(w);
    (pc.Runnable? || pc.Prepared?) && pc.message < |s.queue.sent| && s.queue.sent[pc.message] == r
  }

  function CommittedTo(s: World, r: RunId): set<ActorId> {
    set w | w in s.submitters && Committed(s, w, r)
  }

  /** The jobs a run has had, and those it may still get. */
  function Budget(s: World, r: RunId): nat { s.cloud.created[r] + |CommittedTo(s, r)| }

  lemma {:induction false} SubsetSize(a: set<ActorId>, b: set<ActorId>)
    requires a <= b
    ensures |a| <= |b|
  {
    if x :| x in a { SubsetSize(a - {x}, b - {x}); }
  }

  /** A worker gets committed only by reading QUEUED, and creates a job only by using that up. */
  lemma SubmitKeepsBudget(s: World, w: ActorId, step: SubmitterStep, r: RunId)
    requires Sound(s) && CanSubmit(s, w, step) && Underway(s, r)
    ensures Budget(Submitted(s, w, step), r) <= Budget(s, r)
  {
    var t := Submitted(s, w, step);
    var before, after := CommittedTo(s, r), CommittedTo(t, r);
    assert t.queue.sent == s.queue.sent;
    SubmitMovesOne(s, w, step);
    assert forall v | v in after :: v == w || v in before;
    OneWorkersBudget(s, w, step, r);
    if t.cloud.created[r] > s.cloud.created[r] {
      SubsetSize(after, before - {w});
    } else {
      SubsetSize(after, before);
    }
  }

  lemma OneWorkersBudget(s: World, w: ActorId, step: SubmitterStep, r: RunId)
    requires CanSubmit(s, w, step) && Underway(s, r)
    ensures var t := Submitted(s, w, step);
            && (Committed(t, w, r) ==> Committed(s, w, r) && w in s.submitters)
            && t.cloud.created[r] <= s.cloud.created[r] + 1
            && (t.cloud.created[r] > s.cloud.created[r] ==> Committed(s, w, r) && w in s.submitters && !Committed(t, w, r))
  {}

  /** Nothing happened that a submit worker could notice, except for new messages. */
  ghost predicate Unnoticed(s: World, t: World) {
    t.submitters == s.submitters && s.queue.sent <= t.queue.sent && t.cloud.created == s.cloud.created
  }

  lemma FeedIsUnnoticed(s: World, f: ActorId, step: FeederStep)
    requires CanFeed(s, f, step)
    ensures Unnoticed(s, Fed(s, f, step))
  {}

  lemma WatchIsUnnoticed(s: World, o: ActorId, step: ObserverStep)
    requires CanWatch(s, o, step)
    ensures Unnoticed(s, Watched(s, o, step))
  {}

  lemma UnnoticedKeepsBudget(s: World, t: World, r: RunId)
    requires Sound(s) && Unnoticed(s, t)
    ensures Budget(t, r) == Budget(s, r)
  {
    forall w ensures Committed(t, w, r) <==> Committed(s, w, r) {
      assert SoundSubmitter(s.queue, s.SubmitterOf(w));
    }
    assert CommittedTo(t, r) == CommittedTo(s, r);
  }

  lemma StepKeepsBudget(s: World, a: Action, r: RunId) returns (t: World)
    requires Sound(s) && Enabled(s, a) && !SendsToRetry(s, a, r) && Underway(s, r)
    ensures t == Apply(s, a) && Sound(t) && Underway(t, r) && Budget(t, r) <= Budget(s, r)
  {
    t := StepNeverLowers(s, a, r);
    assert t.store[r].Sound();
    match a {
      case Submit(w, step) => SubmitKeepsBudget(s, w, step, r);
      case Feed(f, step) =>
        FeedIsUnnoticed(s, f, step);
        UnnoticedKeepsBudget(s, t, r);
      case Watch(o, step) =>
        WatchIsUnnoticed(s, o, step);
        UnnoticedKeepsBudget(s, t, r);
      case _ => UnnoticedKeepsBudget(s, t, r);
    }
  }

  lemma {:induction false} ScheduleKeepsBudget(s: World, trace: seq<Action>, r: RunId)
    requires Sound(s) && Schedule(s, trace) && NeverSendsToRetry(s, trace, r) && Underway(s, r)
    ensures Budget(After(s, trace), r) <= Budget(s, r)
    decreases |trace|
  {
    if trace != [] {
      var t := StepKeepsBudget(s, trace[0], r);
      ScheduleKeepsBudget(t, trace[1..], r);
    }
  }

  /** `trace` leads from `s` to `t` without sending the run to retry. */
  ghost predicate Onward(s: World, trace: seq<Action>, t: World, r: RunId) {
    Schedule(s, trace) && After(s, trace) == t && NeverSendsToRetry(s, trace, r)
  }

  lemma OnwardBy(s: World, a: Action, t: World, more: seq<Action>, u: World, r: RunId)
    requires Enabled(s, a) && Apply(s, a) == t && !SendsToRetry(s, a, r) && Onward(t, more, u, r)
    ensures Onward(s, [a] + more, u, r)
  {
    assert ([a] + more)[1..] == more;
  }

  /** Everything a launch depends on but the actors. */
  predicate Launchable(s: World, r: RunId) {
    Underway(s, r) && s.store[r].kind != Unknown && s.store[r].Target() == Kubernetes
  }

  lemma PreparedCreates(s: World, w: ActorId, r: RunId) returns (trace: seq<Action>, t: World)
    requires Sound(s) && Launchable(s, r) && Committed(s, w, r) && s.SubmitterOf(w).Prepared?
    ensures Onward(s, trace, t, r) && Sound(t) && Launchable(t, r)
    ensures t.cloud.created[r] == s.cloud.created[r] + 1 && CommittedTo(t, r) == CommittedTo(s, r) - {w}
  {
    var clear, execute := DeleteJob(r), Submit(w, Execute(Created));
    var u := Apply(s, clear);
    StepKeepsSound(s, clear);
    t := FreeCreates(u, w, r);
    assert CommittedTo(u, r) == CommittedTo(s, r);
    OnwardBy(u, execute, t, [], t, r);
    OnwardBy(s, clear, u, [execute] + [], t, r);
    trace := [clear] + ([execute] + []);
  }

  lemma FreeCreates(s: World, w: ActorId, r: RunId) returns (t: World)
    requires Sound(s) && Launchable(s, r) && Committed(s, w, r) && s.SubmitterOf(w).Prepared? && r !in s.cloud.jobs
    ensures CanSubmit(s, w, Execute(Created)) && t == Submitted(s, w, Execute(Created)) && Sound(t) && Launchable(t, r)
    ensures t.cloud.created[r] == s.cloud.created[r] + 1 && CommittedTo(t, r) == CommittedTo(s, r) - {w}
  {
    t := Submitted(s, w, Execute(Created));
    SubmitKeepsSound(s, w, Execute(Created));
    SubmitMovesOne(s, w, Execute(Created));
    assert forall v | v != w :: Committed(t, v, r) <==> Committed(s, v, r);
    assert !Committed(t, w, r);
  }

  lemma CommittedCreates(s: World, w: ActorId, r: RunId) returns (trace: seq<Action>, t: World)
    requires Sound(s) && Launchable(s, r) && Committed(s, w, r)
    ensures Onward(s, trace, t, r) && Sound(t) && Launchable(t, r)
    ensures t.cloud.created[r] == s.cloud.created[r] + 1 && CommittedTo(t, r) == CommittedTo(s, r) - {w}
  {
    if s.SubmitterOf(w).Prepared? {
      trace, t := PreparedCreates(s, w, r);
    } else {
      var find := Submit(w, FindExecutable(Found));
      var u := Apply(s, find);
      StepKeepsSound(s, find);
      SubmitMovesOne(s, w, FindExecutable(Found));
      assert forall v :: Committed(u, v, r) <==> Committed(s, v, r);
      assert CommittedTo(u, r) == CommittedTo(s, r);
      var more;
      more, t := PreparedCreates(u, w, r);
      OnwardBy(s, find, u, more, t, r);
      trace := [find] + more;
    }
  }

  lemma {:induction false} OnwardOn(s: World, trace: seq<Action>, t: World, more: seq<Action>, u: World, r: RunId)
    requires Onward(s, trace, t, r) && Onward(t, more, u, r)
    ensures Onward(s, trace + more, u, r)
    decreases |trace|
  {
    if trace == [] {
      assert trace + more == more;
    } else {
      var next := Apply(s, trace[0]);
      OnwardOn(next, trace[1..], t, more, u, r);
      OnwardBy(s, trace[0], next, trace[1..] + more, u, r);
      assert trace + more == [trace[0]] + (trace[1..] + more);
    }
  }

  lemma {:induction false} AllCommittedCreate(s: World, r: RunId) returns (trace: seq<Action>, t: World)
    requires Sound(s) && Launchable(s, r)
    ensures Onward(s, trace, t, r) && t.cloud.created[r] == Budget(s, r)
    decreases |CommittedTo(s, r)|
  {
    if w :| w in CommittedTo(s, r) {
      var first, u := CommittedCreates(s, w, r);
      var rest;
      rest, t := AllCommittedCreate(u, r);
      OnwardOn(s, first, u, rest, t, r);
      trace := first + rest;
    } else {
      trace, t := [], s;
      assert CommittedTo(s, r) == {};
    }
  }

  /** Once a run has left QUEUED, and until it is sent to retry, it gets at most one more job for
      every worker that has already read it as QUEUED, however many messages are delivered and
      jobs deleted; and it can get as many. */
  lemma JobsToCome(s: World, r: RunId)
    requires Sound(s) && Launchable(s, r)
    ensures forall trace | Schedule(s, trace) && NeverSendsToRetry(s, trace, r) ::
              After(s, trace).cloud.created[r] <= s.cloud.created[r] + |CommittedTo(s, r)|
    ensures exists trace :: Schedule(s, trace) && NeverSendsToRetry(s, trace, r) &&
              After(s, trace).cloud.created[r] == s.cloud.created[r] + |CommittedTo(s, r)|
  {
    forall trace | Schedule(s, trace) && NeverSendsToRetry(s, trace, r)
      ensures After(s, trace).cloud.created[r] <= Budget(s, r)
    {
      ScheduleKeepsBudget(s, trace, r);
    }
    var trace, t := AllCommittedCreate(s, r);
    assert Schedule(s, trace) && NeverSendsToRetry(s, trace, r) && After(s, trace).cloud.created[r] == Budget(s, r);
  }

  /** Some continuation creates one more job for `r` without ever sending it to retry. */
  ghost predicate CanStillCreate(s: World, r: RunId) {
    exists trace ::
      && Schedule(s, trace) && NeverSendsToRetry(s, trace, r)
      && After(s, trace).cloud.created[r] > s.cloud.created[r]
  }

  /** In particular terminating a run does not call back a worker that has already seen it QUEUED:
      a run stored as STOPPED, or RUNNING, or PENDING, can still get a job exactly when there is
      such a worker. */
  lemma AnotherJobIffCommitted(s: World, r: RunId)
    requires Sound(s) && Launchable(s, r)
    ensures CanStillCreate(s, r) <==> exists w :: Committed(s, w, r)
  {
    JobsToCome(s, r);
    if w :| Committed(s, w, r) {
      assert w in CommittedTo(s, r);
      assert |CommittedTo(s, r)| > 0;
    } else {
      assert CommittedTo(s, r) == {};
    }
  }
}
