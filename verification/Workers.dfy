/** The worker loops, as code over a shared deployment. Between any two effects of a worker the
    other actors may take any number of steps, careful or not; the methods show that the code, read with
    such interruptions, is a schedule of the protocol, and what one pass of it achieves. */
module Workers {
  import opened Statuses
  import opened Lifecycle
  import opened LifecycleInvariants

  /** Who is running: a submit worker, a feeder or an observer, by number. */
  datatype Actor = SubmitWorker(w: ActorId) | FeedWorker(f: ActorId) | WatchWorker(o: ActorId)

  predicate ActsFor(a: Action, me: Actor) {
    match a
    case Submit(w, _) => me == SubmitWorker(w)
    case Feed(f, _) => me == FeedWorker(f)
    case Watch(o, _) => me == WatchWorker(o)
    case _ => false
  }

  /** How a back end answers a submission, before it looks whether the job is there already. */
  datatype Reply = Accepts | AcceptsSilently | Refuses | Down

  /** Everything outside the code that one receipt meets: whether the store and the queue answer,
      what comes of reading the executable, the reply of the back end, and what others do at each
      pause. */
  datatype Weather = Weather(
    readOk: bool, lookup: Lookup, reply: Reply, storeOk: bool, ackOk: bool, pause: nat -> seq<Action>)

  function OutcomeOf(cloud: Cloud, row: Row, r: RunId, reply: Reply): (o: Outcome)
    ensures Possible(cloud, row, r, o)
  {
    if row.Target() == Emr then
      if reply == Accepts then EmrStarted else EmrRejected
    else if reply == Refuses then Invalid
    else if reply == Down then Unavailable
    else if r in cloud.jobs then AlreadyExists
    else if reply == Accepts then Created else LostReply
  }

  /** The row has been written to, at most. */
  predicate Rewritten(before: Row, after: Row) {
    && after.engine == before.engine && after.kind == before.kind && after.born == before.born
    && before.writes <= after.writes
  }

  /** The part of the deployment that other actors can only add to. */
  ghost predicate Grows(s: World, t: World) {
    && (forall r | r in s.store :: r in t.store && Rewritten(s.store[r], t.store[r]))
    && s.queue.sent <= t.queue.sent
    && (forall m | m < |s.queue.sent| && m !in s.queue.live :: m !in t.queue.live)
  }

  lemma StepGrows(s: World, a: Action)
    requires Sound(s) && Enabled(s, a)
    ensures Grows(s, Apply(s, a))
  {
    var t := Apply(s, a);
    StepOnlyGrows(s, a);
    DeletedStaysDeleted(s, a);
    forall r | r in s.store ensures r in t.store && Rewritten(s.store[r], t.store[r]) {
      StepAbsorbs(s, a, r);
    }
  }

  lemma StepOnlyGrows(s: World, a: Action)
    requires Sound(s) && Enabled(s, a)
    ensures OnlyGrows(s, Apply(s, a))
  {
    match a {
      case Feed(f, step) => FeedAround(s, f, step);
      case Submit(w, step) => SubmitAround(s, w, step);
      case _ =>
    }
  }

  lemma DeletedStaysDeleted(s: World, a: Action)
    requires Enabled(s, a)
    ensures forall m | m < |s.queue.sent| && m !in s.queue.live :: m !in Apply(s, a).queue.live
  {}

  lemma GrowsOn(s: World, t: World, u: World)
    requires Grows(s, t) && Grows(t, u)
    ensures Grows(s, u)
  {}

  predicate SameActor(s: World, t: World, me: Actor) {
    match me
    case SubmitWorker(w) => t.SubmitterOf(w) == s.SubmitterOf(w)
    case FeedWorker(f) => t.FeederOf(f) == s.FeederOf(f)
    case WatchWorker(o) => t.ObserverOf(o) == s.ObserverOf(o)
  }

  lemma OthersLeaveMe(s: World, a: Action, me: Actor)
    requires Enabled(s, a) && !ActsFor(a, me)
    ensures SameActor(s, Apply(s, a), me)
  {
    match a {
      case Feed(f, step) => FeedMovesOne(s, f, step);
      case Submit(w, step) => SubmitMovesOne(s, w, step);
      case Watch(o, step) => WatchMovesOne(s, o, step);
      case _ =>
    }
  }

  /** What one actor did, in order. */
  function Mine(steps: seq<Action>, me: Actor): seq<Action> {
    if steps == [] then []
    else (if ActsFor(steps[0], me) then [steps[0]] else []) + Mine(steps[1..], me)
  }

  lemma {:induction false} MineOfBoth(steps: seq<Action>, more: seq<Action>, me: Actor)
    ensures Mine(steps + more, me) == Mine(steps, me) + Mine(more, me)
  {
    if steps == [] {
      assert steps + more == more;
    } else {
      var first := if ActsFor(steps[0], me) then [steps[0]] else [];
      assert (steps + more)[1..] == steps[1..] + more && (steps + more)[0] == steps[0];
      MineOfBoth(steps[1..], more, me);
      assert first + (Mine(steps[1..], me) + Mine(more, me)) == first + Mine(steps[1..], me) + Mine(more, me);
    }
  }

  /** The kinds of slips that one actor made. */
  function SlipsBy(s: World, steps: seq<Action>, me: Actor): set<Slip>
    requires Schedule(s, steps)
    decreases |steps|
  {
    if steps == [] then {}
    else
      (if ActsFor(steps[0], me) then SlipSet(SlipOf(s, steps[0])) else {}) + SlipsBy(Apply(s, steps[0]), steps[1..], me)
  }

  lemma {:induction false} SlipsByBoth(s: World, steps: seq<Action>, more: seq<Action>, me: Actor)
    requires Schedule(s, steps) && Schedule(After(s, steps), more) && Schedule(s, steps + more)
    ensures SlipsBy(s, steps + more, me) == SlipsBy(s, steps, me) + SlipsBy(After(s, steps), more, me)
    decreases |steps|
  {
    if steps == [] {
      assert steps + more == more;
    } else {
      assert (steps + more)[1..] == steps[1..] + more;
      SlipsByBoth(Apply(s, steps[0]), steps[1..], more, me);
    }
  }

  /** `steps` leads from `s` to `t`, and `me` makes no slips but these. */
  ghost predicate Runs(s: World, steps: seq<Action>, t: World, me: Actor, slips: set<Slip>) {
    Schedule(s, steps) && After(s, steps) == t && Sound(t) && Grows(s, t) && SlipsBy(s, steps, me) <= slips
  }

  lemma RunsOn(s: World, steps: seq<Action>, t: World, more: seq<Action>, u: World, me: Actor, slips: set<Slip>)
    requires Runs(s, steps, t, me, slips) && Runs(t, more, u, me, slips)
    ensures Runs(s, steps + more, u, me, slips)
  {
    Concatenate(s, steps, more);
    SlipsByBoth(s, steps, more, me);
    GrowsOn(s, t, u);
  }

  /** `Runs`, with the steps of the actor. */
  ghost predicate Does(s: World, steps: seq<Action>, t: World, slips: set<Slip>, me: Actor, mine: seq<Action>) {
    Runs(s, steps, t, me, slips) && Mine(steps, me) == mine
  }

  lemma DoesOn(s: World, steps: seq<Action>, t: World, more: seq<Action>, u: World, slips: set<Slip>, me: Actor,
               mine: seq<Action>, next: seq<Action>)
    requires Does(s, steps, t, slips, me, mine) && Does(t, more, u, slips, me, next)
    ensures Does(s, steps + more, u, slips, me, mine + next)
  {
    RunsOn(s, steps, t, more, u, me, slips);
    MineOfBoth(steps, more, me);
  }

  lemma RunsOne(s: World, a: Action, me: Actor)
    requires Sound(s) && Enabled(s, a)
    ensures Runs(s, [a], Apply(s, a), me, if ActsFor(a, me) then SlipSet(SlipOf(s, a)) else {})
  {
    assert Schedule(Apply(s, a), []);
    assert SlipsBy(Apply(s, a), [], me) == {};
    StepKeepsSound(s, a);
    StepGrows(s, a);
  }

  /** The others take their turn: of the steps offered, all that are enabled. */
  method Pause(s: World, me: Actor, others: seq<Action>) returns (t: World, taken: seq<Action>)
    requires Sound(s)
    ensures Does(s, taken, t, {}, me, []) && SameActor(s, t, me)
  {
    t, taken := s, [];
    for i := 0 to |others|
      invariant Does(s, taken, t, {}, me, []) && SameActor(s, t, me)
    {
      var a := others[i];
      if !ActsFor(a, me) && Enabled(t, a) {
        RunsOne(t, a, me);
        OthersLeaveMe(t, a, me);
        DoesOn(s, taken, t, [a], Apply(t, a), {}, me, [], []);
        t, taken := Apply(t, a), taken + [a];
      }
    }
  }

  /** If nobody slipped, nothing is lost, however often the others came in between. */
  lemma RunsLoseNothing(s: World, steps: seq<Action>, t: World, me: Actor, slips: set<Slip>)
    requires Sound(s) && NothingLost(s) && Runs(s, steps, t, me, slips) && SlipsOf(s, steps) == {}
    ensures NothingLost(t)
  {
    CarefulIff(s, steps);
    ScheduleLosesNothing(s, steps);
  }

  /** What can slip in the hands of a submit worker: without failing reads and writes, two things. */
  function SubmitSlips(well: bool): set<Slip> {
    {OldJobSlip, LaunchSlip} + if well then {} else {ReadSlip, ExecutableSlip, WriteSlip}
  }

  predicate WentWell(c: Weather) { c.readOk && c.lookup != LookupFails && c.storeOk }

  predicate GoesWell(step: SubmitterStep) {
    !step.ReadRowFails? && !step.StoreLaunchFails? && step != FindExecutable(LookupFails)
  }

  /** One effect of submit worker `w`, after the others have had their turn. */
  method Act(s: World, w: ActorId, others: seq<Action>, step: SubmitterStep) returns (t: World, steps: seq<Action>)
    requires Sound(s) && CanSubmit(s, w, step)
    ensures Does(s, steps, t, SubmitSlips(GoesWell(step)), SubmitWorker(w), [Submit(w, step)])
    ensures t.SubmitterOf(w) == Submitted(s, w, step).SubmitterOf(w)
    ensures forall m | m < |s.queue.sent| && m !in Submitted(s, w, step).queue.live :: m !in t.queue.live
    ensures [Submit(w, step)] <= steps
  {
    RunsOne(s, Submit(w, step), SubmitWorker(w));
    var u := Submitted(s, w, step);
    var more;
    t, more := Pause(u, SubmitWorker(w), others);
    DoesOn(s, [Submit(w, step)], u, more, t, SubmitSlips(GoesWell(step)), SubmitWorker(w), [Submit(w, step)], []);
    steps := [Submit(w, step)] + more;
  }

  // ---- What one receipt comes to, step by step ----

  /** Whether the run was QUEUED when it was read, and how the back end answered, if it was asked. */
  datatype Met = Met(queued: bool, outcome: Outcome)

  /** What the back end can make of a submission: templates and EKS definitions go to Kubernetes,
      where a run has a job already or gets one, heard of or not; the others go to EMR. */
  predicate Answers(row: Row, reply: Reply, outcome: Outcome) {
    if row.kind == Definition && row.engine == Spark then outcome == if reply == Accepts then EmrStarted else EmrRejected
    else match reply
      case Accepts => outcome == Created || outcome == AlreadyExists
      case AcceptsSilently => outcome == LostReply || outcome == AlreadyExists
      case Refuses => outcome == Invalid
      case Down => outcome == Unavailable
  }

  /** Errors that the worker leaves to the next delivery. */
  predicate Retryable(outcome: Outcome) { outcome == LostReply || outcome == Unavailable }

  /** Nothing is stored after a retryable error. */
  function ExecuteScript(w: ActorId, c: Weather, outcome: Outcome): seq<Action> {
    [Submit(w, Execute(outcome))]
    + if Retryable(outcome) then [] else [Submit(w, if c.storeOk then StoreLaunch else StoreLaunchFails)]
  }

  function LaunchScript(w: ActorId, row: Row, c: Weather, outcome: Outcome): seq<Action> {
    [Submit(w, FindExecutable(c.lookup))]
    + if row.kind == Unknown || c.lookup != Found then [] else ExecuteScript(w, c, outcome)
  }

  /** A QUEUED run of unknown kind, or one whose submission met a retryable error, is not
      acknowledged; everything else is. */
  predicate Leaves(row: Row, c: Weather, met: Met) {
    c.readOk && met.queued && (row.kind == Unknown || (c.lookup == Found && Retryable(met.outcome)))
  }

  function HandleScript(w: ActorId, m: MessageId, row: Row, c: Weather, met: Met): seq<Action> {
    [Submit(w, Receive(m)), Submit(w, if c.readOk then ReadRow else ReadRowFails)]
    + if c.readOk && met.queued then LaunchScript(w, row, c, met.outcome) else []
  }

  function ReceiptScript(w: ActorId, m: MessageId, row: Row, c: Weather, met: Met): seq<Action> {
    HandleScript(w, m, row, c, met) + if Leaves(row, c, met) then [] else [Submit(w, if c.ackOk then Ack else AckFails)]
  }

  /** Step `k` reads the run, and finds it QUEUED or not. */
  ghost predicate ReadAs(s: World, steps: seq<Action>, k: nat, w: ActorId, r: RunId, queued: bool) {
    && k < |steps| && steps[k] == Submit(w, ReadRow) && Schedule(s, steps[..k])
    && (queued <==> After(s, steps[..k]).HasStatus(r, Queued))
  }

  lemma StillReadAs(s: World, steps: seq<Action>, longer: seq<Action>, k: nat, w: ActorId, r: RunId, queued: bool)
    requires ReadAs(s, steps, k, w, r, queued) && steps <= longer
    ensures ReadAs(s, longer, k, w, r, queued)
  {
    assert longer[..k] == steps[..k];
  }

  lemma ReadAsLater(s: World, before: seq<Action>, u: World, steps: seq<Action>, k: nat, w: ActorId, r: RunId, queued: bool)
    requires Schedule(s, before) && After(s, before) == u && ReadAs(u, steps, k, w, r, queued)
    ensures ReadAs(s, before + steps, |before| + k, w, r, queued)
  {
    Concatenate(s, before, steps[..k]);
    assert (before + steps)[..|before| + k] == before + steps[..k];
  }

  method ReadRun(s: World, w: ActorId, m: MessageId, c: Weather) returns (t: World, steps: seq<Action>)
    requires Sound(s) && s.SubmitterOf(w) == Got(m) && m < |s.queue.sent|
    ensures Does(s, steps, t, SubmitSlips(c.readOk), SubmitWorker(w), [Submit(w, if c.readOk then ReadRow else ReadRowFails)])
    ensures t.SubmitterOf(w) == Acking(m) || (c.readOk && t.SubmitterOf(w) == Runnable(m))
    ensures c.readOk ==> ReadAs(s, steps, 0, w, s.queue.sent[m], t.SubmitterOf(w) == Runnable(m))
  {
    t, steps := Act(s, w, c.pause(1), if c.readOk then ReadRow else ReadRowFails);
    if c.readOk { ReadsNow(s, steps, w, m); }
  }

  lemma ReadsNow(s: World, steps: seq<Action>, w: ActorId, m: MessageId)
    requires CanSubmit(s, w, ReadRow) && s.SubmitterOf(w) == Got(m) && [Submit(w, ReadRow)] <= steps
    ensures ReadAs(s, steps, 0, w, s.queue.sent[m], Submitted(s, w, ReadRow).SubmitterOf(w) == Runnable(m))
  {}

  /** Receiving a message and reading the run it names. */
  method ReadReceipt(s: World, w: ActorId, m: MessageId, c: Weather) returns (t: World, steps: seq<Action>, ghost read: nat)
    requires Sound(s) && s.SubmitterOf(w) == Idle && m < |s.queue.sent|
    ensures c.readOk ==> ReadAs(s, steps, read, w, s.queue.sent[m], t.SubmitterOf(w) == Runnable(m))
    ensures Does(s, steps, t, SubmitSlips(c.readOk), SubmitWorker(w),
                 [Submit(w, Receive(m)), Submit(w, if c.readOk then ReadRow else ReadRowFails)])
    ensures t.SubmitterOf(w) == Acking(m) || (c.readOk && t.SubmitterOf(w) == Runnable(m))
  {
    var u, first, more;
    u, first := Act(s, w, c.pause(0), Receive(m));
    t, more := ReadRun(u, w, m, c);
    DoesOn(s, first, u, more, t, SubmitSlips(c.readOk), SubmitWorker(w), [Submit(w, Receive(m))],
           [Submit(w, if c.readOk then ReadRow else ReadRowFails)]);
    if c.readOk { ReadAsLater(s, first, u, more, 0, w, s.queue.sent[m], t.SubmitterOf(w) == Runnable(m)); }
    steps, read := first + more, |first|;
  }

  /** Submitting a run whose executable was found, and storing what came of it. */
  method ExecuteRun(s: World, w: ActorId, m: MessageId, c: Weather) returns (t: World, steps: seq<Action>, outcome: Outcome)
    requires Sound(s) && s.SubmitterOf(w) == Prepared(m) && m < |s.queue.sent|
    requires s.queue.sent[m] in s.store && s.store[s.queue.sent[m]].kind != Unknown
    ensures Does(s, steps, t, SubmitSlips(c.storeOk), SubmitWorker(w), ExecuteScript(w, c, outcome))
    ensures Answers(s.store[s.queue.sent[m]], c.reply, outcome)
    ensures t.SubmitterOf(w) == if Retryable(outcome) then Idle else Acking(m)
  {
    t, steps, outcome := AskBackEnd(s, w, m, c);
    if !Retryable(outcome) {
      var u, more := t, [];
      t, more := StoreOutcome(u, w, m, c);
      DoesOn(s, steps, u, more, t, SubmitSlips(c.storeOk), SubmitWorker(w), [Submit(w, Execute(outcome))],
             [Submit(w, if c.storeOk then StoreLaunch else StoreLaunchFails)]);
      steps := steps + more;
    }
  }

  method AskBackEnd(s: World, w: ActorId, m: MessageId, c: Weather) returns (t: World, steps: seq<Action>, outcome: Outcome)
    requires Sound(s) && s.SubmitterOf(w) == Prepared(m) && m < |s.queue.sent|
    requires s.queue.sent[m] in s.store && s.store[s.queue.sent[m]].kind != Unknown
    ensures Does(s, steps, t, SubmitSlips(true), SubmitWorker(w), [Submit(w, Execute(outcome))])
    ensures Answers(s.store[s.queue.sent[m]], c.reply, outcome)
    ensures if Retryable(outcome) then t.SubmitterOf(w) == Idle
            else t.SubmitterOf(w).Launched? && t.SubmitterOf(w).message == m
  {
    var r := s.queue.sent[m];
    outcome := OutcomeOf(s.cloud, s.store[r], r, c.reply);
    t, steps := Act(s, w, c.pause(3), Execute(outcome));
  }

  method StoreOutcome(s: World, w: ActorId, m: MessageId, c: Weather) returns (t: World, steps: seq<Action>)
    requires Sound(s) && s.SubmitterOf(w).Launched? && s.SubmitterOf(w).message == m
    ensures Does(s, steps, t, SubmitSlips(c.storeOk), SubmitWorker(w),
                 [Submit(w, if c.storeOk then StoreLaunch else StoreLaunchFails)])
    ensures t.SubmitterOf(w) == Acking(m)
  {
    assert SoundSubmitter(s.queue, s.SubmitterOf(w));
    t, steps := Act(s, w, c.pause(4), if c.storeOk then StoreLaunch else StoreLaunchFails);
  }

  predicate Acks(pc: Submitter, m: MessageId) {
    pc == Acking(m) || (pc.AckingMissing? && pc.message == m)
  }

  /** What the submit worker does with a run it has read as QUEUED. */
  method LaunchRun(s: World, w: ActorId, m: MessageId, c: Weather) returns (t: World, steps: seq<Action>, outcome: Outcome)
    requires Sound(s) && s.SubmitterOf(w) == Runnable(m) && m < |s.queue.sent| && s.queue.sent[m] in s.store
    ensures Does(s, steps, t, SubmitSlips(c.lookup != LookupFails && c.storeOk), SubmitWorker(w),
                 LaunchScript(w, s.store[s.queue.sent[m]], c, outcome))
    ensures s.store[s.queue.sent[m]].kind != Unknown ==> Answers(s.store[s.queue.sent[m]], c.reply, outcome)
    ensures if s.store[s.queue.sent[m]].kind == Unknown || (c.lookup == Found && Retryable(outcome))
            then t.SubmitterOf(w) == Idle else Acks(t.SubmitterOf(w), m)
  {
    var row := s.store[s.queue.sent[m]];
    outcome := OutcomeOf(s.cloud, row, s.queue.sent[m], c.reply);
    OutcomeAnswers(s.cloud, row, s.queue.sent[m], c.reply);
    t, steps := LookUp(s, w, m, c);
    if t.SubmitterOf(w) == Prepared(m) {
      var u, more := t, [];
      t, more, outcome := ExecuteRun(u, w, m, c);
      SameScript(w, row, u.store[u.queue.sent[m]], c, outcome);
      DoesOn(s, steps, u, more, t, SubmitSlips(c.lookup != LookupFails && c.storeOk), SubmitWorker(w),
             [Submit(w, FindExecutable(c.lookup))], ExecuteScript(w, c, outcome));
      steps := steps + more;
    }
  }

  lemma OutcomeAnswers(cloud: Cloud, row: Row, r: RunId, reply: Reply)
    ensures row.kind != Unknown ==> Answers(row, reply, OutcomeOf(cloud, row, r, reply))
  {}

  method LookUp(s: World, w: ActorId, m: MessageId, c: Weather) returns (t: World, steps: seq<Action>)
    requires Sound(s) && s.SubmitterOf(w) == Runnable(m) && m < |s.queue.sent| && s.queue.sent[m] in s.store
    ensures Does(s, steps, t, SubmitSlips(c.lookup != LookupFails), SubmitWorker(w), [Submit(w, FindExecutable(c.lookup))])
    ensures if s.store[s.queue.sent[m]].kind == Unknown then t.SubmitterOf(w) == Idle
            else if c.lookup == Found then t.SubmitterOf(w) == Prepared(m)
            else Acks(t.SubmitterOf(w), m)
    ensures m < |t.queue.sent| && t.queue.sent[m] == s.queue.sent[m] && t.queue.sent[m] in t.store
    ensures Rewritten(s.store[s.queue.sent[m]], t.store[s.queue.sent[m]])
  {
    t, steps := Act(s, w, c.pause(2), FindExecutable(c.lookup));
  }

  /** Everything up to the acknowledgement, which may not be due. */
  method HandleReceipt(s: World, w: ActorId, m: MessageId, c: Weather)
    returns (t: World, steps: seq<Action>, met: Met, ghost read: nat)
    requires Sound(s) && s.SubmitterOf(w) == Idle && m < |s.queue.sent| && s.queue.sent[m] in s.store
    ensures Does(s, steps, t, SubmitSlips(WentWell(c)), SubmitWorker(w), HandleScript(w, m, s.store[s.queue.sent[m]], c, met))
    ensures s.store[s.queue.sent[m]].kind != Unknown ==> Answers(s.store[s.queue.sent[m]], c.reply, met.outcome)
    ensures if Leaves(s.store[s.queue.sent[m]], c, met) then t.SubmitterOf(w) == Idle else Acks(t.SubmitterOf(w), m)
    ensures c.readOk ==> ReadAs(s, steps, read, w, s.queue.sent[m], met.queued)
  {
    var row := s.store[s.queue.sent[m]];
    t, steps, read := ReadReceipt(s, w, m, c);
    met := Met(t.SubmitterOf(w) == Runnable(m), OutcomeOf(s.cloud, row, s.queue.sent[m], c.reply));
    if met.queued {
      var u, more, outcome := t, [], met.outcome;
      t, more, outcome := LaunchRun(u, w, m, c);
      met := Met(true, outcome);
      SameScript(w, row, u.store[u.queue.sent[m]], c, outcome);
      DoesOn(s, steps, u, more, t, SubmitSlips(WentWell(c)), SubmitWorker(w),
             [Submit(w, Receive(m)), Submit(w, ReadRow)], LaunchScript(w, row, c, outcome));
      if c.readOk { StillReadAs(s, steps, steps + more, read, w, s.queue.sent[m], true); }
      steps := steps + more;
    }
  }

  /** The engine and the kind of a run never change. */
  lemma SameScript(w: ActorId, row: Row, later: Row, c: Weather, outcome: Outcome)
    requires Rewritten(row, later)
    ensures LaunchScript(w, later, c, outcome) == LaunchScript(w, row, c, outcome)
    ensures Answers(later, c.reply, outcome) <==> Answers(row, c.reply, outcome)
  {}

  method AckReceipt(s: World, w: ActorId, m: MessageId, c: Weather) returns (t: World, steps: seq<Action>)
    requires Sound(s) && Acks(s.SubmitterOf(w), m)
    ensures Does(s, steps, t, SubmitSlips(true), SubmitWorker(w), [Submit(w, if c.ackOk then Ack else AckFails)])
    ensures t.SubmitterOf(w) == Idle && (c.ackOk ==> m !in t.queue.live)
  {
    assert SoundSubmitter(s.queue, s.SubmitterOf(w));
    t, steps := Act(s, w, c.pause(5), if c.ackOk then Ack else AckFails);
  }

  /** One receipt of the submit worker's loop, others interfering at every pause: exactly its steps.
      The message is deleted unless the run is QUEUED and of an unknown kind or its submission met a
      retryable error, or the acknowledgement fails. */
  method ProcessReceipt(s: World, w: ActorId, m: MessageId, c: Weather)
    returns (t: World, steps: seq<Action>, acked: bool, met: Met, ghost read: nat)
    requires Sound(s) && s.SubmitterOf(w) == Idle && m < |s.queue.sent| && s.queue.sent[m] in s.store
    ensures Does(s, steps, t, SubmitSlips(WentWell(c)), SubmitWorker(w), ReceiptScript(w, m, s.store[s.queue.sent[m]], c, met))
    ensures s.store[s.queue.sent[m]].kind != Unknown ==> Answers(s.store[s.queue.sent[m]], c.reply, met.outcome)
    ensures t.SubmitterOf(w) == Idle && (acked <==> c.ackOk && !Leaves(s.store[s.queue.sent[m]], c, met))
    ensures acked ==> m !in t.queue.live
    ensures c.readOk ==> ReadAs(s, steps, read, w, s.queue.sent[m], met.queued)
  {
    t, steps, met, read := HandleReceipt(s, w, m, c);
    acked := t.SubmitterOf(w) != Idle && c.ackOk;
    if t.SubmitterOf(w) != Idle {
      var u, more := t, [];
      t, more := AckReceipt(u, w, m, c);
      DoesOn(s, steps, u, more, t, SubmitSlips(WentWell(c)), SubmitWorker(w),
             HandleScript(w, m, s.store[s.queue.sent[m]], c, met), [Submit(w, if c.ackOk then Ack else AckFails)]);
      if c.readOk { StillReadAs(s, steps, steps + more, read, w, s.queue.sent[m], met.queued); }
      steps := steps + more;
    }
  }

  /** No read or write of the pass failed. */
  ghost predicate AllWell(weather: seq<Weather>) {
    forall i | 0 <= i < |weather| :: WentWell(weather[i])
  }

  function RowOf(s: World, m: MessageId): Row
    requires m < |s.queue.sent| && s.queue.sent[m] in s.store
  {
    s.store[s.queue.sent[m]]
  }

  ghost predicate Receivable(s: World, receipts: seq<MessageId>) {
    forall i | 0 <= i < |receipts| :: receipts[i] < |s.queue.sent| && s.queue.sent[receipts[i]] in s.store
  }

  /** What the worker does about the first `k` receipts, one after the other. */
  ghost function PassScript(s: World, w: ActorId, receipts: seq<MessageId>, weather: seq<Weather>, met: seq<Met>, k: nat): seq<Action>
    requires Receivable(s, receipts) && k <= |receipts| == |weather| && k <= |met|
  {
    if k == 0 then []
    else
      PassScript(s, w, receipts, weather, met, k - 1)
      + ReceiptScript(w, receipts[k - 1], RowOf(s, receipts[k - 1]), weather[k - 1], met[k - 1])
  }

  lemma {:induction false} ScriptDependsOnPrefix(s: World, w: ActorId, receipts: seq<MessageId>, weather: seq<Weather>,
                                                 met: seq<Met>, longer: seq<Met>, k: nat)
    requires Receivable(s, receipts) && k <= |receipts| == |weather| && k <= |met| && met <= longer
    ensures PassScript(s, w, receipts, weather, longer, k) == PassScript(s, w, receipts, weather, met, k)
  {
    if k > 0 { ScriptDependsOnPrefix(s, w, receipts, weather, met, longer, k - 1); }
  }

  /** Of the first `k` receipts those that were acknowledged are gone. */
  ghost predicate Settled(s: World, receipts: seq<MessageId>, weather: seq<Weather>, met: seq<Met>, k: nat, live: set<MessageId>)
    requires Receivable(s, receipts)
  {
    && k <= |receipts| == |weather| && k <= |met|
    && forall i | 0 <= i < k && receipts[i] in live :: !weather[i].ackOk || Leaves(RowOf(s, receipts[i]), weather[i], met[i])
  }

  ghost predicate AllAnswered(s: World, receipts: seq<MessageId>, weather: seq<Weather>, met: seq<Met>)
    requires Receivable(s, receipts)
  {
    && |met| <= |receipts| == |weather|
    && forall i | 0 <= i < |met| ::
         RowOf(s, receipts[i]).kind != Unknown ==> Answers(RowOf(s, receipts[i]), weather[i].reply, met[i].outcome)
  }

  ghost predicate HasRead(s: World, steps: seq<Action>, w: ActorId, r: RunId, queued: bool) {
    exists k :: ReadAs(s, steps, k, w, r, queued)
  }

  /** The runs were QUEUED or not as the worker read them. */
  ghost predicate AllRead(s: World, w: ActorId, receipts: seq<MessageId>, weather: seq<Weather>, met: seq<Met>, steps: seq<Action>)
    requires Receivable(s, receipts)
  {
    && |met| <= |receipts| == |weather|
    && forall i | 0 <= i < |met| && weather[i].readOk ::
         HasRead(s, steps, w, s.queue.sent[receipts[i]], met[i].queued)
  }

  lemma ReadOneMore(s: World, w: ActorId, receipts: seq<MessageId>, weather: seq<Weather>, met: seq<Met>,
                    steps: seq<Action>, u: World, more: seq<Action>, next: Met, read: nat)
    requires Receivable(s, receipts) && |met| < |receipts| && AllRead(s, w, receipts, weather, met, steps)
    requires Schedule(s, steps) && After(s, steps) == u
    requires weather[|met|].readOk ==> ReadAs(u, more, read, w, s.queue.sent[receipts[|met|]], next.queued)
    ensures AllRead(s, w, receipts, weather, met + [next], steps + more)
  {
    var later := steps + more;
    if weather[|met|].readOk {
      HasReadLater(s, steps, u, more, read, w, s.queue.sent[receipts[|met|]], next.queued);
    }
    forall i | 0 <= i < |met| && weather[i].readOk
      ensures HasRead(s, later, w, s.queue.sent[receipts[i]], met[i].queued)
    {
      StillHasRead(s, steps, more, w, s.queue.sent[receipts[i]], met[i].queued);
    }
  }

  lemma HasReadLater(s: World, before: seq<Action>, u: World, steps: seq<Action>, k: nat, w: ActorId, r: RunId, queued: bool)
    requires Schedule(s, before) && After(s, before) == u && ReadAs(u, steps, k, w, r, queued)
    ensures HasRead(s, before + steps, w, r, queued)
  {
    ReadAsLater(s, before, u, steps, k, w, r, queued);
  }

  lemma StillHasRead(s: World, steps: seq<Action>, more: seq<Action>, w: ActorId, r: RunId, queued: bool)
    requires HasRead(s, steps, w, r, queued)
    ensures HasRead(s, steps + more, w, r, queued)
  {
    var k :| ReadAs(s, steps, k, w, r, queued);
    StillReadAs(s, steps, steps + more, k, w, r, queued);
  }

  /** The pass has come past `k` receipts. */
  ghost predicate Passed(s: World, w: ActorId, receipts: seq<MessageId>, weather: seq<Weather>, met: seq<Met>,
                         steps: seq<Action>, t: World)
    requires Receivable(s, receipts)
  {
    && AllAnswered(s, receipts, weather, met) && AllRead(s, w, receipts, weather, met, steps) && t.SubmitterOf(w) == Idle
    && Does(s, steps, t, SubmitSlips(AllWell(weather)), SubmitWorker(w), PassScript(s, w, receipts, weather, met, |met|))
    && Settled(s, receipts, weather, met, |met|, t.queue.live)
  }

  lemma PassedOneMore(s: World, w: ActorId, receipts: seq<MessageId>, weather: seq<Weather>, met: seq<Met>,
                      steps: seq<Action>, u: World, more: seq<Action>, t: World, acked: bool, next: Met, read: nat)
    requires Receivable(s, receipts) && Passed(s, w, receipts, weather, met, steps, u) && |met| < |receipts|
    requires var m, c := receipts[|met|], weather[|met|];
             && Receivable(u, receipts) && t.SubmitterOf(w) == Idle
             && Does(u, more, t, SubmitSlips(WentWell(c)), SubmitWorker(w), ReceiptScript(w, m, RowOf(u, m), c, next))
             && (RowOf(u, m).kind != Unknown ==> Answers(RowOf(u, m), c.reply, next.outcome))
             && (acked <==> c.ackOk && !Leaves(RowOf(u, m), c, next)) && (acked ==> m !in t.queue.live)
             && (c.readOk ==> ReadAs(u, more, read, w, u.queue.sent[m], next.queued))
    ensures Passed(s, w, receipts, weather, met + [next], steps + more, t)
  {
    var m, c := receipts[|met|], weather[|met|];
    SameReceipt(s, u, w, m, c, next);
    ScriptGoesOn(s, w, receipts, weather, met, steps, u, more, t, next);
    AnsweredOneMore(s, receipts, weather, met, next);
    ReadOneMore(s, w, receipts, weather, met, steps, u, more, next, read);
    SettledOneMore(s, u, t, receipts, weather, met, next, acked);
  }

  lemma ScriptGoesOn(s: World, w: ActorId, receipts: seq<MessageId>, weather: seq<Weather>, met: seq<Met>,
                     steps: seq<Action>, u: World, more: seq<Action>, t: World, next: Met)
    requires Receivable(s, receipts) && |met| < |receipts| == |weather|
    requires Does(s, steps, u, SubmitSlips(AllWell(weather)), SubmitWorker(w), PassScript(s, w, receipts, weather, met, |met|))
    requires var m, c := receipts[|met|], weather[|met|];
             Does(u, more, t, SubmitSlips(WentWell(c)), SubmitWorker(w), ReceiptScript(w, m, RowOf(s, m), c, next))
    ensures Does(s, steps + more, t, SubmitSlips(AllWell(weather)), SubmitWorker(w),
                 PassScript(s, w, receipts, weather, met + [next], |met| + 1))
  {
    var k := |met|;
    var m, c := receipts[k], weather[k];
    var script := ReceiptScript(w, m, RowOf(s, m), c, next);
    ScriptOneMore(s, w, receipts, weather, met, next);
    assert SubmitSlips(WentWell(c)) <= SubmitSlips(AllWell(weather));
    FewerSlips(u, more, t, SubmitSlips(WentWell(c)), SubmitSlips(AllWell(weather)), SubmitWorker(w), script);
    DoesOn(s, steps, u, more, t, SubmitSlips(AllWell(weather)), SubmitWorker(w),
           PassScript(s, w, receipts, weather, met, k), script);
  }

  lemma FewerSlips(s: World, steps: seq<Action>, t: World, few: set<Slip>, many: set<Slip>, me: Actor, mine: seq<Action>)
    requires Does(s, steps, t, few, me, mine) && few <= many
    ensures Does(s, steps, t, many, me, mine)
  {}

  lemma ScriptOneMore(s: World, w: ActorId, receipts: seq<MessageId>, weather: seq<Weather>, met: seq<Met>, next: Met)
    requires Receivable(s, receipts) && |met| < |receipts| == |weather|
    ensures var k := |met|;
            PassScript(s, w, receipts, weather, met + [next], k + 1) ==
            PassScript(s, w, receipts, weather, met, k) + ReceiptScript(w, receipts[k], RowOf(s, receipts[k]), weather[k], next)
  {
    ScriptDependsOnPrefix(s, w, receipts, weather, met, met + [next], |met|);
  }

  lemma AnsweredOneMore(s: World, receipts: seq<MessageId>, weather: seq<Weather>, met: seq<Met>, next: Met)
    requires Receivable(s, receipts) && |met| < |receipts| && AllAnswered(s, receipts, weather, met)
    requires var k := |met|;
             RowOf(s, receipts[k]).kind != Unknown ==> Answers(RowOf(s, receipts[k]), weather[k].reply, next.outcome)
    ensures AllAnswered(s, receipts, weather, met + [next])
  {}

  lemma SameReceipt(s: World, u: World, w: ActorId, m: MessageId, c: Weather, met: Met)
    requires Grows(s, u) && m < |s.queue.sent| && s.queue.sent[m] in s.store
    ensures m < |u.queue.sent| && u.queue.sent[m] in u.store
    ensures ReceiptScript(w, m, RowOf(u, m), c, met) == ReceiptScript(w, m, RowOf(s, m), c, met)
    ensures Leaves(RowOf(u, m), c, met) <==> Leaves(RowOf(s, m), c, met)
    ensures RowOf(u, m).kind == RowOf(s, m).kind
    ensures Answers(RowOf(u, m), c.reply, met.outcome) <==> Answers(RowOf(s, m), c.reply, met.outcome)
  {
    assert Rewritten(RowOf(s, m), RowOf(u, m));
  }

  lemma SettledOneMore(s: World, u: World, t: World, receipts: seq<MessageId>, weather: seq<Weather>, met: seq<Met>,
                       next: Met, acked: bool)
    requires Receivable(s, receipts) && Grows(s, u) && Grows(u, t) && |met| < |receipts|
    requires Settled(s, receipts, weather, met, |met|, u.queue.live)
    requires var m, c := receipts[|met|], weather[|met|];
             (acked <==> c.ackOk && !Leaves(RowOf(s, m), c, next)) && (acked ==> m !in t.queue.live)
    ensures Settled(s, receipts, weather, met + [next], |met| + 1, t.queue.live)
  {
    forall i | 0 <= i < |met| && receipts[i] in t.queue.live ensures receipts[i] in u.queue.live {}
  }

  /** One pass of the submit worker over the receipts it has polled: exactly its steps. */
  method SubmitWorkerRunOnce(s: World, w: ActorId, receipts: seq<MessageId>, weather: seq<Weather>)
    returns (t: World, steps: seq<Action>, met: seq<Met>)
    requires Sound(s) && s.SubmitterOf(w) == Idle && |weather| == |receipts| && Receivable(s, receipts)
    ensures |met| == |receipts| && Passed(s, w, receipts, weather, met, steps, t)
    ensures NothingLost(s) && SlipsOf(s, steps) == {} ==> NothingLost(t)
  {
    t, steps, met := s, [], [];
    for k := 0 to |receipts|
      invariant |met| == k && Passed(s, w, receipts, weather, met, steps, t)
    {
      var u, more, acked, next := t, [], true, Met(false, Created);
      ghost var read;
      forall i | 0 <= i < |receipts| ensures receipts[i] < |u.queue.sent| && u.queue.sent[receipts[i]] in u.store {
        SameReceipt(s, u, w, receipts[i], weather[i], next);
      }
      t, more, acked, next, read := ProcessReceipt(u, w, receipts[k], weather[k]);
      PassedOneMore(s, w, receipts, weather, met, steps, u, more, t, acked, next, read);
      steps, met := steps + more, met + [next];
    }
    if NothingLost(s) && SlipsOf(s, steps) == {} { RunsLoseNothing(s, steps, t, SubmitWorker(w), SubmitSlips(AllWell(weather))); }
  }

  /** What can slip in the hands of a feeder. */
  function FeedSlips(enqueueOk: bool): set<Slip> { if enqueueOk then {} else {EnqueueSlip} }

  /** One effect of a creating request or a retry worker, after which the others have their turn. */
  method ActFeeding(s: World, f: ActorId, others: seq<Action>, step: FeederStep) returns (t: World, steps: seq<Action>)
    requires Sound(s) && CanFeed(s, f, step)
    ensures Does(s, steps, t, SlipSet(SlipOf(s, Feed(f, step))), FeedWorker(f), [Feed(f, step)])
    ensures t.FeederOf(f) == Fed(s, f, step).FeederOf(f)
    ensures Grows(Fed(s, f, step), t)
  {
    RunsOne(s, Feed(f, step), FeedWorker(f));
    var u := Fed(s, f, step);
    var more;
    t, more := Pause(u, FeedWorker(f), others);
    DoesOn(s, [Feed(f, step)], u, more, t, SlipSet(SlipOf(s, Feed(f, step))), FeedWorker(f), [Feed(f, step)], []);
    steps := [Feed(f, step)] + more;
  }

  /** A message about `r` was sent after the first `n`. */
  predicate SentSince(queue: Queue, n: nat, r: RunId) {
    n <= |queue.sent| && r in queue.sent[n..]
  }

  function EnqueueStep(enqueueOk: bool): FeederStep { if enqueueOk then Enqueue else CallFails }

  /** Whether the two calls about one listed run succeed: storing QUEUED, and sending the message. */
  datatype Calls = Calls(updateOk: bool, enqueueOk: bool) {
    predicate Ok() { updateOk && enqueueOk }
  }

  /** The steps about one listed run, up to the first failure, and what slips. */
  function RecycleScript(f: ActorId, calls: Calls): seq<Action> {
    if calls.updateOk then [Feed(f, Recycle), Feed(f, EnqueueStep(calls.enqueueOk))] else [Feed(f, CallFails)]
  }

  function RecycleSlips(calls: Calls): set<Slip> { FeedSlips(!calls.updateOk || calls.enqueueOk) }

  /** One run of a retry listing: QUEUED is stored, then the run is enqueued. */
  method RecycleRun(s: World, f: ActorId, r: RunId, rest: seq<RunId>, calls: Calls, pause: nat -> seq<Action>)
    returns (t: World, steps: seq<Action>)
    requires Sound(s) && s.FeederOf(f) == Recycling([r] + rest)
    ensures Does(s, steps, t, RecycleSlips(calls), FeedWorker(f), RecycleScript(f, calls))
    ensures r in s.store && r in t.store && (calls.updateOk ==> s.store[r].writes + [Queued] <= t.store[r].writes)
    ensures t.FeederOf(f) == if calls.Ok() then Continue(rest) else AtRest
    ensures calls.Ok() ==> SentSince(t.queue, |s.queue.sent|, r)
  {
    assert SoundFeeder(s.store, s.FeederOf(f)) && r in [r] + rest;
    if !calls.updateOk {
      t, steps := ActFeeding(s, f, pause(0), CallFails);
      return;
    }
    var u, first, more;
    u, first := StoreQueued(s, f, r, rest, pause(0));
    t, more := Send(u, f, r, false, rest, calls.enqueueOk, pause(1));
    StoredAndSent(s, first, u, more, t, f, r, calls.enqueueOk);
    steps := first + more;
  }

  lemma StoredAndSent(s: World, first: seq<Action>, u: World, more: seq<Action>, t: World, f: ActorId, r: RunId, enqueueOk: bool)
    requires Does(s, first, u, {}, FeedWorker(f), [Feed(f, Recycle)])
    requires r in s.store && r in u.store && s.store[r].writes + [Queued] <= u.store[r].writes
    requires Does(u, more, t, FeedSlips(enqueueOk), FeedWorker(f), [Feed(f, EnqueueStep(enqueueOk))])
    requires enqueueOk ==> SentSince(t.queue, |u.queue.sent|, r)
    ensures Does(s, first + more, t, FeedSlips(enqueueOk), FeedWorker(f), [Feed(f, Recycle), Feed(f, EnqueueStep(enqueueOk))])
    ensures r in t.store && s.store[r].writes + [Queued] <= t.store[r].writes
    ensures enqueueOk ==> SentSince(t.queue, |s.queue.sent|, r)
  {
    DoesOn(s, first, u, more, t, FeedSlips(enqueueOk), FeedWorker(f), [Feed(f, Recycle)], [Feed(f, EnqueueStep(enqueueOk))]);
    LaterSends(s.queue, u.queue, t.queue, r);
  }

  method StoreQueued(s: World, f: ActorId, r: RunId, rest: seq<RunId>, others: seq<Action>) returns (t: World, steps: seq<Action>)
    requires Sound(s) && s.FeederOf(f) == Recycling([r] + rest)
    ensures Does(s, steps, t, {}, FeedWorker(f), [Feed(f, Recycle)]) && t.FeederOf(f) == Enqueueing(r, false, rest)
    ensures r in s.store && r in t.store && s.store[r].writes + [Queued] <= t.store[r].writes
  {
    assert SoundFeeder(s.store, s.FeederOf(f)) && ([r] + rest)[1..] == rest;
    t, steps := ActFeeding(s, f, others, Recycle);
    assert Rewritten(Fed(s, f, Recycle).store[r], t.store[r]);
  }

  /** The enqueue call, which succeeds or not. */
  method Send(s: World, f: ActorId, r: RunId, isNew: bool, rest: seq<RunId>, enqueueOk: bool, others: seq<Action>)
    returns (t: World, steps: seq<Action>)
    requires Sound(s) && s.FeederOf(f) == Enqueueing(r, isNew, rest)
    ensures Does(s, steps, t, FeedSlips(enqueueOk), FeedWorker(f), [Feed(f, EnqueueStep(enqueueOk))])
    ensures t.FeederOf(f) == if !enqueueOk then AtRest else if isNew then Stamping(r) else Continue(rest)
    ensures enqueueOk ==> SentSince(t.queue, |s.queue.sent|, r)
  {
    t, steps := ActFeeding(s, f, others, EnqueueStep(enqueueOk));
    if enqueueOk {
      assert s.queue.sent + [r] <= t.queue.sent;
      assert t.queue.sent[|s.queue.sent|..][0] == r;
    }
  }

  /** What a retry worker does that has recycled `done` runs. */
  function RetryScript(f: ActorId, listed: seq<RunId>, done: nat): seq<Action> {
    [Feed(f, ListForRetry(listed))] + Recycled(f, done)
  }

  function Recycled(f: ActorId, done: nat): seq<Action> {
    if done == 0 then [] else Recycled(f, done - 1) + [Feed(f, Recycle), Feed(f, Enqueue)]
  }

  lemma ScriptOn(f: ActorId, listed: seq<RunId>, done: nat)
    ensures RetryScript(f, listed, done) + RecycleScript(f, Calls(true, true)) == RetryScript(f, listed, done + 1)
  {}

  /** One pass of the retry worker over its listing; `calls` says which calls succeed. For every
      listed run it stores QUEUED and then sends a message, up to the first failure. */
  method RetryWorkerRunOnce(s: World, f: ActorId, listed: seq<RunId>, calls: seq<Calls>, pause: (nat, nat) -> seq<Action>)
    returns (t: World, steps: seq<Action>, done: nat)
    requires Sound(s) && CanFeed(s, f, ListForRetry(listed)) && |calls| == |listed|
    ensures FirstFailure(calls, done)
    ensures Ended(s, f, listed, calls, done, steps, t)
  {
    assert forall i | 0 <= i < |listed| :: listed[i] in s.store;
    t, steps := ListRuns(s, f, listed, pause(0, 0));
    done := 0;
    while done < |listed|
      invariant Progress(s, f, listed, done, steps, t)
      invariant AllOk(calls, done)
    {
      t, steps := RetryOne(s, f, listed, calls, done, steps, t, (n: nat) => pause(done + 1, n));
      if !calls[done].Ok() {
        return;
      }
      OneMoreOk(calls, done);
      done := done + 1;
    }
    ProgressEnds(s, f, listed, calls, steps, t);
  }

  predicate AllOk(calls: seq<Calls>, n: nat) {
    n <= |calls| && forall i | 0 <= i < n :: calls[i].Ok()
  }

  lemma OneMoreOk(calls: seq<Calls>, n: nat)
    requires AllOk(calls, n) && n < |calls| && calls[n].Ok()
    ensures AllOk(calls, n + 1)
  {}

  /** The calls about the first `n` runs succeed, and about the next one, if there is one, not all. */
  predicate FirstFailure(calls: seq<Calls>, n: nat) {
    AllOk(calls, n) && (n < |calls| ==> !calls[n].Ok())
  }

  method ListRuns(s: World, f: ActorId, listed: seq<RunId>, others: seq<Action>) returns (t: World, steps: seq<Action>)
    requires Sound(s) && CanFeed(s, f, ListForRetry(listed))
    ensures Progress(s, f, listed, 0, steps, t)
  {
    t, steps := ActFeeding(s, f, others, ListForRetry(listed));
    assert listed[0..] == listed;
    assert RetryScript(f, listed, 0) == [Feed(f, ListForRetry(listed))];
  }

  /** The run at position `done` of the listing, after the ones before it. */
  method RetryOne(s: World, f: ActorId, listed: seq<RunId>, calls: seq<Calls>, done: nat, before: seq<Action>, u: World,
                  pause: nat -> seq<Action>)
    returns (t: World, steps: seq<Action>)
    requires Progress(s, f, listed, done, before, u) && done < |listed| == |calls| && listed[done] in s.store
    ensures calls[done].Ok() ==> Progress(s, f, listed, done + 1, steps, t)
    ensures !calls[done].Ok() ==> Ended(s, f, listed, calls, done, steps, t)
  {
    var more;
    assert listed[done..] == [listed[done]] + listed[done + 1..];
    t, more := RecycleRun(u, f, listed[done], listed[done + 1..], calls[done], pause);
    if calls[done].Ok() {
      assert calls[done] == Calls(true, true);
      RetryGoesOn(s, f, listed, done, before, u, more, t);
    } else {
      RetryFails(s, f, listed, calls, done, before, u, more, t);
    }
    steps := before + more;
  }

  /** The pass has recycled `done` runs. */
  ghost predicate Progress(s: World, f: ActorId, listed: seq<RunId>, done: nat, steps: seq<Action>, t: World) {
    && done <= |listed| && t.FeederOf(f) == Continue(listed[done..])
    && Does(s, steps, t, {}, FeedWorker(f), RetryScript(f, listed, done))
    && AllSent(s, t, listed, done)
  }

  /** How the pass ends if it stops after `done` runs: with the failing calls about the next one, or
      at the end of the listing. */
  function LastScript(f: ActorId, calls: seq<Calls>, done: nat): seq<Action> {
    if done < |calls| then RecycleScript(f, calls[done]) else []
  }

  function LastSlips(calls: seq<Calls>, done: nat): set<Slip> {
    if done < |calls| then RecycleSlips(calls[done]) else {}
  }

  /** The pass is over: for `done` runs it has stored QUEUED and then sent a message, and of the next
      one, if there is one, it has done what was left to it. */
  ghost predicate Ended(s: World, f: ActorId, listed: seq<RunId>, calls: seq<Calls>, done: nat, steps: seq<Action>, t: World) {
    && done <= |listed| && t.FeederOf(f) == AtRest
    && Does(s, steps, t, LastSlips(calls, done), FeedWorker(f), RetryScript(f, listed, done) + LastScript(f, calls, done))
    && AllSent(s, t, listed, done)
  }

  lemma ProgressEnds(s: World, f: ActorId, listed: seq<RunId>, calls: seq<Calls>, steps: seq<Action>, t: World)
    requires Progress(s, f, listed, |listed|, steps, t) && |calls| == |listed|
    ensures Ended(s, f, listed, calls, |listed|, steps, t)
  {
    assert RetryScript(f, listed, |listed|) + [] == RetryScript(f, listed, |listed|);
  }

  lemma RetryGoesOn(s: World, f: ActorId, listed: seq<RunId>, done: nat, steps: seq<Action>, u: World, more: seq<Action>, t: World)
    requires Progress(s, f, listed, done, steps, u) && done < |listed| && listed[done] in s.store
    requires Does(u, more, t, {}, FeedWorker(f), RecycleScript(f, Calls(true, true)))
    requires t.FeederOf(f) == Continue(listed[done + 1..]) && SentSince(t.queue, |u.queue.sent|, listed[done])
    requires listed[done] in u.store && listed[done] in t.store
    requires u.store[listed[done]].writes + [Queued] <= t.store[listed[done]].writes
    ensures Progress(s, f, listed, done + 1, steps + more, t)
  {
    ScriptOn(f, listed, done);
    DoesOn(s, steps, u, more, t, {}, FeedWorker(f), RetryScript(f, listed, done), RecycleScript(f, Calls(true, true)));
    OneMoreSent(s, u, t, listed, done);
  }

  lemma RetryFails(s: World, f: ActorId, listed: seq<RunId>, calls: seq<Calls>, done: nat, steps: seq<Action>, u: World,
                   more: seq<Action>, t: World)
    requires Progress(s, f, listed, done, steps, u) && done < |listed| == |calls| && t.FeederOf(f) == AtRest
    requires Does(u, more, t, LastSlips(calls, done), FeedWorker(f), LastScript(f, calls, done))
    ensures Ended(s, f, listed, calls, done, steps + more, t)
  {
    DoesOn(s, steps, u, more, t, LastSlips(calls, done), FeedWorker(f), RetryScript(f, listed, done), LastScript(f, calls, done));
    AllSentOn(s, u, t, listed, done);
  }

  /** QUEUED was written to the row after what `s` had. */
  predicate QueuedSince(s: World, t: World, r: RunId) {
    r in s.store && r in t.store && |s.store[r].writes| <= |t.store[r].writes| && Queued in t.store[r].writes[|s.store[r].writes|..]
  }

  predicate AllSent(s: World, t: World, listed: seq<RunId>, done: nat) {
    && done <= |listed|
    && forall i | 0 <= i < done :: QueuedSince(s, t, listed[i]) && SentSince(t.queue, |s.queue.sent|, listed[i])
  }

  lemma LaterWrites(s: World, t: World, u: World, r: RunId)
    requires Grows(s, t) && Grows(t, u) && r in s.store
    ensures QueuedSince(s, t, r) || QueuedSince(t, u, r) ==> QueuedSince(s, u, r)
  {
    var a, b, c := s.store[r].writes, t.store[r].writes, u.store[r].writes;
    assert c[|a|..] == c[|a|..|b|] + c[|b|..];
    assert c[|a|..|b|] == b[|a|..];
  }

  lemma AllSentOn(s: World, t: World, u: World, listed: seq<RunId>, done: nat)
    requires Grows(s, t) && Grows(t, u) && AllSent(s, t, listed, done)
    ensures AllSent(s, u, listed, done)
  {
    forall i | 0 <= i < done ensures QueuedSince(s, u, listed[i]) && SentSince(u.queue, |s.queue.sent|, listed[i]) {
      LaterSends(s.queue, t.queue, u.queue, listed[i]);
      LaterWrites(s, t, u, listed[i]);
    }
  }

  lemma OneMoreSent(s: World, t: World, u: World, listed: seq<RunId>, done: nat)
    requires Grows(s, t) && Grows(t, u) && AllSent(s, t, listed, done)
    requires done < |listed| && SentSince(u.queue, |t.queue.sent|, listed[done])
    requires listed[done] in s.store && t.store[listed[done]].writes + [Queued] <= u.store[listed[done]].writes
    ensures AllSent(s, u, listed, done + 1)
  {
    var r := listed[done];
    AllSentOn(s, t, u, listed, done);
    LaterSends(s.queue, t.queue, u.queue, r);
    assert u.store[r].writes[|t.store[r].writes|..][0] == Queued;
    LaterWrites(s, t, u, r);
  }

  lemma LaterSends(a: Queue, b: Queue, c: Queue, r: RunId)
    requires a.sent <= b.sent <= c.sent
    ensures SentSince(b, |a.sent|, r) || SentSince(c, |b.sent|, r) ==> SentSince(c, |a.sent|, r)
  {
    assert c.sent[|a.sent|..] == c.sent[|a.sent|..|b.sent|] + c.sent[|b.sent|..];
    assert c.sent[|a.sent|..|b.sent|] == b.sent[|a.sent|..];
  }

  /** Which calls of a creating request succeed. */
  datatype Creation = Creation(createOk: bool, enqueueOk: bool, stampOk: bool)

  /** The steps of the request up to the first failure: the row, the message, and the time it was sent. */
  function CreateScript(f: ActorId, r: RunId, engine: Engine, kind: ExecutableKind, c: Creation): seq<Action> {
    if c.createOk then [Feed(f, Create(r, engine, kind))] + SendScript(f, c) else []
  }

  function SendScript(f: ActorId, c: Creation): seq<Action> {
    [Feed(f, EnqueueStep(c.enqueueOk))] + if c.enqueueOk then [Feed(f, StampStep(c))] else []
  }

  function StampStep(c: Creation): FeederStep { if c.stampOk then Stamp else CallFails }

  /** `createAndEnqueueRun`: the row is stored, as QUEUED, before the message is sent. */
  method CreateAndEnqueueRun(s: World, f: ActorId, r: RunId, engine: Engine, kind: ExecutableKind, c: Creation,
                             pause: nat -> seq<Action>)
    returns (t: World, steps: seq<Action>)
    requires Sound(s) && s.FeederOf(f) == AtRest && r !in s.store
    ensures Does(s, steps, t, FeedSlips(!c.createOk || c.enqueueOk), FeedWorker(f), CreateScript(f, r, engine, kind, c))
    ensures t.FeederOf(f) == AtRest
    ensures c.createOk ==> r in t.store && t.store[r].engine == engine && t.store[r].kind == kind && t.store[r].born == Queued
    ensures c.createOk && c.enqueueOk ==> SentSince(t.queue, |s.queue.sent|, r)
  {
    if !c.createOk {
      t, steps := Pause(s, FeedWorker(f), pause(0));
      return;
    }
    t, steps := ActFeeding(s, f, pause(0), Create(r, engine, kind));
    var u, more := t, [];
    t, more := EnqueueNew(u, f, r, c, pause);
    DoesOn(s, steps, u, more, t, FeedSlips(c.enqueueOk), FeedWorker(f), [Feed(f, Create(r, engine, kind))], SendScript(f, c));
    LaterSends(s.queue, u.queue, t.queue, r);
    steps := steps + more;
  }

  /** Sending the message of a stored run and stamping the time. */
  method EnqueueNew(s: World, f: ActorId, r: RunId, c: Creation, pause: nat -> seq<Action>)
    returns (t: World, steps: seq<Action>)
    requires Sound(s) && s.FeederOf(f) == Enqueueing(r, true, [])
    ensures Does(s, steps, t, FeedSlips(c.enqueueOk), FeedWorker(f), SendScript(f, c)) && t.FeederOf(f) == AtRest
    ensures c.enqueueOk ==> SentSince(t.queue, |s.queue.sent|, r)
  {
    var u, first, more;
    u, first := Send(s, f, r, true, [], c.enqueueOk, pause(1));
    if !c.enqueueOk {
      return u, first;
    }
    t, more := StampTime(u, f, r, c, pause(2));
    SentAndStamped(s, first, u, more, t, f, r, c);
    steps := first + more;
  }

  lemma SentAndStamped(s: World, first: seq<Action>, u: World, more: seq<Action>, t: World, f: ActorId, r: RunId, c: Creation)
    requires Does(s, first, u, {}, FeedWorker(f), [Feed(f, Enqueue)]) && SentSince(u.queue, |s.queue.sent|, r) && c.enqueueOk
    requires Does(u, more, t, {}, FeedWorker(f), [Feed(f, StampStep(c))])
    ensures Does(s, first + more, t, {}, FeedWorker(f), SendScript(f, c)) && SentSince(t.queue, |s.queue.sent|, r)
  {
    DoesOn(s, first, u, more, t, {}, FeedWorker(f), [Feed(f, Enqueue)], [Feed(f, StampStep(c))]);
    LaterSends(s.queue, u.queue, t.queue, r);
  }

  method StampTime(s: World, f: ActorId, r: RunId, c: Creation, others: seq<Action>) returns (t: World, steps: seq<Action>)
    requires Sound(s) && s.FeederOf(f) == Stamping(r)
    ensures Does(s, steps, t, {}, FeedWorker(f), [Feed(f, StampStep(c))]) && t.FeederOf(f) == AtRest
  {
    assert SoundFeeder(s.store, s.FeederOf(f));
    t, steps := ActFeeding(s, f, others, StampStep(c));
  }

  /** One effect of a status poller or event handler, after which the others have their turn. */
  method ActWatching(s: World, o: ActorId, others: seq<Action>, step: ObserverStep) returns (t: World, steps: seq<Action>)
    requires Sound(s) && CanWatch(s, o, step)
    ensures Does(s, steps, t, SlipSet(SlipOf(s, Watch(o, step))), WatchWorker(o), [Watch(o, step)])
    ensures t.ObserverOf(o) == Watched(s, o, step).ObserverOf(o)
    ensures Grows(Watched(s, o, step), t)
  {
    RunsOne(s, Watch(o, step), WatchWorker(o));
    var u := Watched(s, o, step);
    var more;
    t, more := Pause(u, WatchWorker(o), others);
    DoesOn(s, [Watch(o, step)], u, more, t, SlipSet(SlipOf(s, Watch(o, step))), WatchWorker(o), [Watch(o, step)], []);
    steps := [Watch(o, step)] + more;
  }

  /** What the cluster says about a run that a poller asks for: no job, and the run is old; another
      error; the job with nothing new; or the job with a status. */
  datatype Verdict = GoneTooLong | NoAnswer | AsBefore | Now(status: Status)

  /** What comes of asking now: nothing, if the verdict does not fit the jobs there are. */
  function Asked(cloud: Cloud, r: RunId, verdict: Verdict): Verdict {
    if (r in cloud.jobs) == verdict.GoneTooLong? then NoAnswer else verdict
  }

  /** The status written back for an answer. */
  function Reported(listed: Status, answer: Verdict): Status
    requires answer != NoAnswer
  {
    match answer
    case GoneTooLong => Stopped
    case AsBefore => listed
    case Now(status) => status
  }

  /** The answer that the jobs of the world after `k` steps allow: none for a job that is there and said
      to be gone, or the other way round. */
  ghost predicate AskedAfter(s: World, steps: seq<Action>, k: nat, r: RunId, verdict: Verdict, answer: Verdict) {
    && k <= |steps| && Schedule(s, steps[..k])
    && answer == if verdict == GoneTooLong && r !in After(s, steps[..k]).cloud.jobs then GoneTooLong
                 else if verdict != GoneTooLong && r in After(s, steps[..k]).cloud.jobs then verdict
                 else NoAnswer
  }

  /** After `k` steps the run was reloaded and found to be STOPPED. */
  ghost predicate StoppedAfter(s: World, steps: seq<Action>, k: nat, r: RunId) {
    k <= |steps| && Schedule(s, steps[..k]) && After(s, steps[..k]).HasStatus(r, Stopped)
  }

  /** `processEKSRun`: a listed row is held while the row is reloaded, the cluster is asked, and the
      row is written back. The others come in before each of the three. A run that is found STOPPED by
      then is left alone; for any other the cluster is asked, and what is stored is STOPPED if the
      job is gone, the status listed if there is nothing new, and else the status of the job. The
      poller slips only by repeating a QUEUED that it was listed with. */
  method ProcessEksRun(s: World, o: ActorId, r: RunId, reloadOk: bool, verdict: Verdict, writeOk: bool, pause: nat -> seq<Action>)
    returns (t: World, steps: seq<Action>, answer: Verdict, ghost reloaded: nat, ghost asked: nat)
    requires Sound(s) && r in s.store
    requires verdict.Now? ==> verdict.status in {Running, Stopped}
    ensures Does(s, steps, t, PollSlips(s.store[r].status, answer, writeOk), WatchWorker(o),
                 PollScript(o, r, s.store[r].status, answer, writeOk))
    ensures if reloadOk && StoppedAfter(s, steps, reloaded, r) then answer == NoAnswer
            else AskedAfter(s, steps, asked, r, verdict, answer)
    ensures PollScript(o, r, s.store[r].status, answer, writeOk) ==
              [Watch(o, Observe(r))]
              + if answer == NoAnswer then [] else if !writeOk then [Watch(o, ReportFails)]
                else [Watch(o, Report(if answer == GoneTooLong then Stopped
                                      else if answer == AsBefore then s.store[r].status else answer.status))]
    ensures NothingLost(s) && SlipsOf(s, steps) == {} ==> NothingLost(t)
  {
    var first, u;
    u, first := ActWatching(s, o, pause(0), Observe(r));
    assert first[..|first|] == first;
    reloaded, asked, answer, t, steps := |first|, |first|, NoAnswer, u, first;
    if !reloadOk || u.store[r].status != Stopped {
      t, steps, answer, asked := AskAndWrite(s, o, r, first, u, verdict, writeOk, pause);
      assert steps[..|first|] == first;
    }
    PollScriptIs(o, r, s.store[r].status, answer, writeOk);
    if NothingLost(s) && SlipsOf(s, steps) == {} {
      RunsLoseNothing(s, steps, t, WatchWorker(o), PollSlips(s.store[r].status, answer, writeOk));
    }
  }

  lemma PollScriptIs(o: ActorId, r: RunId, listed: Status, answer: Verdict, writeOk: bool)
    ensures PollScript(o, r, listed, answer, writeOk) ==
              [Watch(o, Observe(r))]
              + if answer == NoAnswer then [] else if !writeOk then [Watch(o, ReportFails)]
                else [Watch(o, Report(if answer == GoneTooLong then Stopped else if answer == AsBefore then listed else answer.status))]
  {}

  /** What comes after the reload. */
  method AskAndWrite(s: World, o: ActorId, r: RunId, first: seq<Action>, u: World, verdict: Verdict, writeOk: bool,
                     pause: nat -> seq<Action>)
    returns (t: World, steps: seq<Action>, answer: Verdict, ghost asked: nat)
    requires r in s.store && Does(s, first, u, {}, WatchWorker(o), [Watch(o, Observe(r))])
    requires u.ObserverOf(o) == Saw(r, s.store[r].status) && (verdict.Now? ==> verdict.status in {Running, Stopped})
    ensures Does(s, steps, t, PollSlips(s.store[r].status, answer, writeOk), WatchWorker(o),
                 PollScript(o, r, s.store[r].status, answer, writeOk))
    ensures first <= steps && AskedAfter(s, steps, asked, r, verdict, answer)
  {
    var second, v;
    v, second := PauseOn(s, u, first, WatchWorker(o), [Watch(o, Observe(r))], pause(1));
    answer := Asked(v.cloud, r, verdict);
    asked := |second|;
    AskedNow(s, second, v, r, verdict);
    t, steps := WriteAnswer(s, o, r, second, v, answer, writeOk, pause);
  }

  method WriteAnswer(s: World, o: ActorId, r: RunId, before: seq<Action>, u: World, answer: Verdict, writeOk: bool,
                     pause: nat -> seq<Action>)
    returns (t: World, steps: seq<Action>)
    requires r in s.store && Does(s, before, u, {}, WatchWorker(o), [Watch(o, Observe(r))])
    requires u.ObserverOf(o) == Saw(r, s.store[r].status) && (answer.Now? ==> answer.status in {Running, Stopped})
    ensures Does(s, steps, t, PollSlips(s.store[r].status, answer, writeOk), WatchWorker(o),
                 PollScript(o, r, s.store[r].status, answer, writeOk))
    ensures before <= steps
  {
    t, steps := PauseOn(s, u, before, WatchWorker(o), [Watch(o, Observe(r))], pause(2));
    if answer != NoAnswer {
      t, steps := WriteBack(s, o, r, t, steps, answer, writeOk, pause(3));
    }
  }

  lemma AskedNow(s: World, steps: seq<Action>, u: World, r: RunId, verdict: Verdict)
    requires Schedule(s, steps) && After(s, steps) == u
    ensures forall longer | steps <= longer :: AskedAfter(s, longer, |steps|, r, verdict, Asked(u.cloud, r, verdict))
  {
    forall longer | steps <= longer ensures AskedAfter(s, longer, |steps|, r, verdict, Asked(u.cloud, r, verdict)) {
      assert longer[..|steps|] == steps;
    }
  }

  function PollSlips(listed: Status, answer: Verdict, writeOk: bool): set<Slip> {
    if listed == Queued && answer == AsBefore && writeOk then {ReportSlip} else {}
  }

  function ReportStep(listed: Status, answer: Verdict, writeOk: bool): ObserverStep
    requires answer != NoAnswer
  {
    if writeOk then Report(Reported(listed, answer)) else ReportFails
  }

  function PollScript(o: ActorId, r: RunId, listed: Status, answer: Verdict, writeOk: bool): seq<Action> {
    [Watch(o, Observe(r))] + if answer == NoAnswer then [] else [Watch(o, ReportStep(listed, answer, writeOk))]
  }

  /** The others come in once more. */
  method PauseOn(s: World, u: World, before: seq<Action>, me: Actor, ghost mine: seq<Action>, others: seq<Action>)
    returns (t: World, steps: seq<Action>)
    requires Does(s, before, u, {}, me, mine)
    ensures Does(s, steps, t, {}, me, mine) && SameActor(u, t, me) && before <= steps
  {
    var more;
    t, more := Pause(u, me, others);
    DoesOn(s, before, u, more, t, {}, me, mine, []);
    steps := before + more;
  }

  /** The row as listed, with the answer in it, is stored. */
  method WriteBack(s: World, o: ActorId, r: RunId, u: World, before: seq<Action>, answer: Verdict, writeOk: bool,
                   others: seq<Action>)
    returns (t: World, steps: seq<Action>)
    requires r in s.store && Does(s, before, u, {}, WatchWorker(o), [Watch(o, Observe(r))])
    requires u.ObserverOf(o) == Saw(r, s.store[r].status)
    requires answer != NoAnswer && (answer.Now? ==> answer.status in {Running, Stopped})
    ensures Does(s, steps, t, PollSlips(s.store[r].status, answer, writeOk), WatchWorker(o),
                 PollScript(o, r, s.store[r].status, answer, writeOk))
    ensures before <= steps
  {
    var step := ReportStep(s.store[r].status, answer, writeOk);
    var more;
    t, more := ActWatching(u, o, others, step);
    DoesOn(s, before, u, more, t, PollSlips(s.store[r].status, answer, writeOk), WatchWorker(o),
           [Watch(o, Observe(r))], [Watch(o, step)]);
    steps := before + more;
  }
}
