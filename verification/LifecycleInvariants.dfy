/** What every transition of the protocol keeps, and what follows over whole schedules. */
module LifecycleInvariants {
  import opened Statuses
  import opened Lifecycle

  // ---- Soundness: kept by every transition, failures included ----

  predicate SoundFeeder(store: Store, pc: Feeder) {
    match pc
    case AtRest => true
    case Enqueueing(r, _, rest) => r in store && forall q | q in rest :: q in store
    case Stamping(r) => r in store
    case Recycling(todo) => forall q | q in todo :: q in store
  }

  predicate SoundSubmitter(queue: Queue, pc: Submitter) {
    pc.Idle? || (pc.message < |queue.sent| && (pc.Launched? ==> pc.report in {Queued, Running, Stopped}))
  }

  predicate SoundObserver(store: Store, pc: Observer) {
    pc.Saw? ==> pc.run in store && pc.snapshot.Valid()
  }

  ghost predicate SoundQueue(s: World) {
    && (forall i | 0 <= i < |s.queue.sent| :: s.queue.sent[i] in s.store)
    && (forall m | m in s.queue.live :: m < |s.queue.sent|)
  }

  ghost predicate Sound(s: World) {
    && (forall r | r in s.store :: s.store[r].Sound())
    && SoundQueue(s)
    && s.cloud.Sound()
    && (forall f :: SoundFeeder(s.store, s.FeederOf(f)))
    && (forall w :: SoundSubmitter(s.queue, s.SubmitterOf(w)))
    && (forall o :: SoundObserver(s.store, s.ObserverOf(o)))
  }

  lemma UpdateIsSound(row: Row, st: Status)
    requires row.Sound()
    ensures row.Update(st).Sound()
  {
    assert row.Update(st).writes[..|row.writes|] == row.writes;
  }

  /** Nothing is forgotten: not a row and not a message. */
  ghost predicate OnlyGrows(s: World, t: World) {
    s.store.Keys <= t.store.Keys && s.queue.sent <= t.queue.sent
  }

  /** Actors that did not move stay sound while others add to what they rely on. */
  lemma ActorsStaySound(s: World, t: World)
    requires Sound(s) && OnlyGrows(s, t)
    ensures forall f | t.FeederOf(f) == s.FeederOf(f) :: SoundFeeder(t.store, t.FeederOf(f))
    ensures forall w | t.SubmitterOf(w) == s.SubmitterOf(w) :: SoundSubmitter(t.queue, t.SubmitterOf(w))
    ensures forall o | t.ObserverOf(o) == s.ObserverOf(o) :: SoundObserver(t.store, t.ObserverOf(o))
  {
    forall f ensures SoundFeeder(t.store, s.FeederOf(f)) { assert SoundFeeder(s.store, s.FeederOf(f)); }
    forall w ensures SoundSubmitter(t.queue, s.SubmitterOf(w)) {
      assert SoundSubmitter(s.queue, s.SubmitterOf(w));
    }
    forall o ensures SoundObserver(t.store, s.ObserverOf(o)) { assert SoundObserver(s.store, s.ObserverOf(o)); }
  }

  /** The rest of the world around a step of one actor. */
  ghost predicate SoundAround(s: World, t: World) {
    OnlyGrows(s, t) && SoundQueue(t) && t.cloud.Sound() && forall r | r in t.store :: t.store[r].Sound()
  }

  lemma OneFeederMoved(s: World, t: World, f: ActorId)
    requires Sound(s) && SoundAround(s, t) && SoundFeeder(t.store, t.FeederOf(f))
    requires t.submitters == s.submitters && t.observers == s.observers && forall g | g != f :: t.FeederOf(g) == s.FeederOf(g)
    ensures Sound(t)
  {
    ActorsStaySound(s, t);
  }

  lemma OneSubmitterMoved(s: World, t: World, w: ActorId)
    requires Sound(s) && SoundAround(s, t) && SoundSubmitter(t.queue, t.SubmitterOf(w))
    requires t.feeders == s.feeders && t.observers == s.observers && forall v | v != w :: t.SubmitterOf(v) == s.SubmitterOf(v)
    ensures Sound(t)
  {
    ActorsStaySound(s, t);
  }

  lemma FeedAround(s: World, f: ActorId, step: FeederStep)
    requires Sound(s) && CanFeed(s, f, step)
    ensures SoundAround(s, Fed(s, f, step))
  {
    var t := Fed(s, f, step);
    assert SoundFeeder(s.store, s.FeederOf(f));
    forall r | r in t.store ensures t.store[r].Sound() {
      if r in s.store && t.store[r] != s.store[r] {
        UpdateIsSound(s.store[r], if step.Stamp? then Other("") else Queued);
      }
    }
  }

  lemma FeederStaysSound(s: World, f: ActorId, step: FeederStep)
    requires Sound(s) && CanFeed(s, f, step)
    ensures SoundFeeder(Fed(s, f, step).store, Fed(s, f, step).FeederOf(f))
  {
    assert SoundFeeder(s.store, s.FeederOf(f));
  }

  lemma FeedMovesOne(s: World, f: ActorId, step: FeederStep)
    requires CanFeed(s, f, step)
    ensures var t := Fed(s, f, step);
            t.submitters == s.submitters && t.observers == s.observers && forall g | g != f :: t.FeederOf(g) == s.FeederOf(g)
  {}

  lemma FeedKeepsSound(s: World, f: ActorId, step: FeederStep)
    requires Sound(s) && CanFeed(s, f, step)
    ensures Sound(Fed(s, f, step))
  {
    FeedAround(s, f, step);
    FeederStaysSound(s, f, step);
    FeedMovesOne(s, f, step);
    OneFeederMoved(s, Fed(s, f, step), f);
  }

  lemma SubmitAround(s: World, w: ActorId, step: SubmitterStep)
    requires Sound(s) && CanSubmit(s, w, step)
    ensures SoundAround(s, Submitted(s, w, step))
  {
    var t := Submitted(s, w, step);
    forall r | r in t.store ensures t.store[r].Sound() {
      if t.store[r] != s.store[r] {
        UpdateIsSound(s.store[r], s.SubmitterOf(w).report);
      }
    }
  }

  lemma SubmitterStaysSound(s: World, w: ActorId, step: SubmitterStep)
    requires Sound(s) && CanSubmit(s, w, step)
    ensures var t := Submitted(s, w, step); SoundSubmitter(t.queue, t.SubmitterOf(w))
  {
    assert SoundSubmitter(s.queue, s.SubmitterOf(w));
  }

  lemma SubmitMovesOne(s: World, w: ActorId, step: SubmitterStep)
    requires CanSubmit(s, w, step)
    ensures var t := Submitted(s, w, step);
            t.feeders == s.feeders && t.observers == s.observers && forall v | v != w :: t.SubmitterOf(v) == s.SubmitterOf(v)
  {}

  lemma SubmitKeepsSound(s: World, w: ActorId, step: SubmitterStep)
    requires Sound(s) && CanSubmit(s, w, step)
    ensures Sound(Submitted(s, w, step))
  {
    SubmitAround(s, w, step);
    SubmitterStaysSound(s, w, step);
    SubmitMovesOne(s, w, step);
    OneSubmitterMoved(s, Submitted(s, w, step), w);
  }

  lemma WatchMovesOne(s: World, o: ActorId, step: ObserverStep)
    requires CanWatch(s, o, step)
    ensures var t := Watched(s, o, step);
            t.feeders == s.feeders && t.submitters == s.submitters && forall p | p != o :: t.ObserverOf(p) == s.ObserverOf(p)
  {}

  lemma WatchKeepsSound(s: World, o: ActorId, step: ObserverStep)
    requires Sound(s) && CanWatch(s, o, step)
    ensures Sound(Watched(s, o, step))
  {
    WatchAround(s, o, step);
    WatchMovesOne(s, o, step);
    OneObserverMoved(s, Watched(s, o, step), o);
  }

  lemma WatchAround(s: World, o: ActorId, step: ObserverStep)
    requires Sound(s) && CanWatch(s, o, step)
    ensures var t := Watched(s, o, step); SoundAround(s, t) && SoundObserver(t.store, t.ObserverOf(o))
  {
    if step.Report? { UpdateIsSound(s.store[s.ObserverOf(o).run], step.s); }
    if step.Observe? { assert s.store[step.r].Sound(); }
  }

  lemma OneObserverMoved(s: World, t: World, o: ActorId)
    requires Sound(s) && SoundAround(s, t) && SoundObserver(t.store, t.ObserverOf(o))
    requires t.feeders == s.feeders && t.submitters == s.submitters && forall p | p != o :: t.ObserverOf(p) == s.ObserverOf(p)
    ensures Sound(t)
  {
    ActorsStaySound(s, t);
  }

  lemma NobodyMoved(s: World, t: World)
    requires Sound(s) && SoundAround(s, t)
    requires t.feeders == s.feeders && t.submitters == s.submitters && t.observers == s.observers
    ensures Sound(t)
  {
    ActorsStaySound(s, t);
  }

  lemma StepKeepsSound(s: World, a: Action)
    requires Sound(s) && Enabled(s, a)
    ensures Sound(Apply(s, a))
  {
    match a
    case Feed(f, step) => FeedKeepsSound(s, f, step);
    case Submit(w, step) => SubmitKeepsSound(s, w, step);
    case Watch(o, step) => WatchKeepsSound(s, o, step);
    case Request(r, st) =>
      UpdateIsSound(s.store[r], st);
      NobodyMoved(s, Apply(s, a));
    case DeleteJob(_) => NobodyMoved(s, Apply(s, a));
  }

  lemma {:induction false} ScheduleKeepsSound(s: World, trace: seq<Action>)
    requires Sound(s) && Schedule(s, trace)
    ensures Sound(After(s, trace))
    decreases |trace|
  {
    if trace != [] {
      StepKeepsSound(s, trace[0]);
      ScheduleKeepsSound(Apply(s, trace[0]), trace[1..]);
    }
  }

  /** Over every interleaving of all writers, whatever they had read and whatever failed, each
      stored status is the highest-precedence valid status written since the last NEEDS_RETRY. */
  lemma StoredStatusIsHighestWritten(trace: seq<Action>, r: RunId)
    requires Schedule(Start(), trace) && r in After(Start(), trace).store
    ensures var row := After(Start(), trace).store[r];
            IsHighest(Window(row.born, row.writes), row.status)
  {
    ScheduleKeepsSound(Start(), trace);
    var row := After(Start(), trace).store[r];
    ReplayIsHighest(row.born, row.writes, row.status);
  }

  /** The books of the cluster: a run has had one more job created than deleted exactly while it
      has one. How many workers get to create one is up to the protocol (`LifecycleLimits`). */
  lemma OneJobPerRun(trace: seq<Action>, r: RunId)
    requires Schedule(Start(), trace)
    ensures var cloud := After(Start(), trace).cloud;
            cloud.created[r] == cloud.deleted[r] + if r in cloud.jobs then 1 else 0
  {
    ScheduleKeepsSound(Start(), trace);
  }

  // ---- Statuses over a schedule ----

  /** The step writes NEEDS_RETRY over run `r`: the API does, or a handler repeating what it read. */
  predicate SendsToRetry(s: World, a: Action, r: RunId) {
    || a == Request(r, NeedsRetry)
    || (a.Watch? && a.watch == Report(NeedsRetry) && s.ObserverOf(a.o).Saw? && s.ObserverOf(a.o).run == r)
  }

  predicate NeverSendsToRetry(s: World, trace: seq<Action>, r: RunId)
    requires Schedule(s, trace)
    decreases |trace|
  {
    trace == [] || (!SendsToRetry(s, trace[0], r) && NeverSendsToRetry(Apply(s, trace[0]), trace[1..], r))
  }

  /** Anything a transition does to a stored row is to absorb one status. */
  ghost predicate Absorbs(before: Store, after: Store, r: RunId, retry: bool)
    requires r in before
  {
    r in after && (after[r] == before[r] || exists st :: (st == NeedsRetry ==> retry) && after[r] == before[r].Update(st))
  }

  lemma StepAbsorbs(s: World, a: Action, r: RunId)
    requires Sound(s) && Enabled(s, a) && r in s.store
    ensures Absorbs(s.store, Apply(s, a).store, r, SendsToRetry(s, a, r))
  {
    match a
    case Feed(f, step) =>
      if Apply(s, a).store[r] != s.store[r] {
        assert Apply(s, a).store[r] == s.store[r].Update(if step.Stamp? then Other("") else Queued);
      }
    case Submit(w, step) =>
      assert SoundSubmitter(s.queue, s.SubmitterOf(w));
      if Apply(s, a).store[r] != s.store[r] {
        assert Apply(s, a).store[r] == s.store[r].Update(s.SubmitterOf(w).report);
      }
    case Watch(o, step) =>
      if Apply(s, a).store[r] != s.store[r] {
        assert Apply(s, a).store[r] == s.store[r].Update(step.s);
      }
    case Request(q, st) =>
      if q == r { assert Apply(s, a).store[r] == s.store[r].Update(st); }
    case DeleteJob(_) =>
  }

  /** The stored status of the run is what it was, or comes later in a life. */
  ghost predicate NotBelow(before: Store, after: Store, r: RunId) {
    && r in before && r in after
    && (after[r].status == before[r].status || Later(after[r].status, before[r].status))
  }

  lemma StepNeverLowers(s: World, a: Action, r: RunId) returns (t: World)
    requires Sound(s) && Enabled(s, a) && r in s.store && !SendsToRetry(s, a, r)
    ensures t == Apply(s, a) && Sound(t) && NotBelow(s.store, t.store, r)
  {
    StepKeepsSound(s, a);
    StepAbsorbs(s, a, r);
    t := Apply(s, a);
    AbsorbingNeverLowers(s.store, t.store, r);
  }

  lemma AbsorbingNeverLowers(before: Store, after: Store, r: RunId)
    requires r in before && Absorbs(before, after, r, false)
    ensures NotBelow(before, after, r)
  {}

  lemma NotBelowOn(a: Store, b: Store, c: Store, r: RunId)
    requires NotBelow(a, b, r) && NotBelow(b, c, r)
    ensures NotBelow(a, c, r)
  {}

  /** Between NEEDS_RETRY writes no interleaving moves a stored status down; STOPPED is final. In
      particular a worker that loses the race and reports the QUEUED it once read, or any other
      stale snapshot, cannot undo what the winner stored. */
  lemma {:induction false} StatusNeverFallsBack(s: World, trace: seq<Action>, r: RunId)
    requires Sound(s) && Schedule(s, trace) && r in s.store && NeverSendsToRetry(s, trace, r)
    ensures NotBelow(s.store, After(s, trace).store, r)
    decreases |trace|
  {
    if trace != [] {
      var t := StepNeverLowers(s, trace[0], r);
      StatusNeverFallsBack(t, trace[1..], r);
      NotBelowOn(s.store, t.store, After(t, trace[1..]).store, r);
    }
  }

  /** So a run stored as RUNNING is RUNNING or STOPPED afterwards, one stored as PENDING is not QUEUED
      again, and STOPPED stays STOPPED. */
  lemma LivesGoForward(s: World, trace: seq<Action>, r: RunId, i: nat)
    requires Sound(s) && Schedule(s, trace) && r in s.store && NeverSendsToRetry(s, trace, r)
    requires i < 4 && s.store[r].status == [Queued, Pending, Running, Stopped][i]
    ensures r in After(s, trace).store && After(s, trace).store[r].status in [Queued, Pending, Running, Stopped][i..]
  {
    StatusNeverFallsBack(s, trace, r);
    var t := After(s, trace).store[r].status;
    var life := [Queued, Pending, Running, Stopped];
    assert life[0] == Queued && life[1] == Pending && life[2] == Running && life[3] == Stopped;
    var j: nat :| i <= j < 4 && t == life[j];
    assert life[i..][j - i] == t;
  }

  // ---- Who is retried ----

  /** The run was never sent to retry, and nobody believes so. */
  ghost predicate NeverRetried(s: World, r: RunId) {
    && (r in s.store ==> s.store[r].status != NeedsRetry && s.store[r].attempt == 0)
    && forall o :: s.ObserverOf(o) != Saw(r, NeedsRetry)
  }

  lemma AbsorbingNeverRetries(before: Store, after: Store, r: RunId)
    requires r in before && Absorbs(before, after, r, false) && before[r].status != NeedsRetry
    ensures after[r].status != NeedsRetry && after[r].attempt == before[r].attempt
  {}

  lemma HandlersBelieve(s: World, a: Action, r: RunId, o: ActorId)
    requires Enabled(s, a) && NeverRetried(s, r)
    ensures Apply(s, a).ObserverOf(o) != Saw(r, NeedsRetry)
  {
    assert s.ObserverOf(o) != Saw(r, NeedsRetry);
  }

  lemma StepNeverRetries(s: World, a: Action, r: RunId)
    requires Sound(s) && Enabled(s, a) && NeverRetried(s, r) && a != Request(r, NeedsRetry)
    ensures NeverRetried(Apply(s, a), r)
  {
    if r in s.store {
      StepAbsorbs(s, a, r);
      assert !SendsToRetry(s, a, r) by { if a.Watch? { assert s.ObserverOf(a.o) != Saw(r, NeedsRetry); } }
      AbsorbingNeverRetries(s.store, Apply(s, a).store, r);
    } else if r in Apply(s, a).store {
      NewIsNotRetried(s, a, r);
    }
    forall o ensures Apply(s, a).ObserverOf(o) != Saw(r, NeedsRetry) { HandlersBelieve(s, a, r, o); }
  }

  lemma NewIsNotRetried(s: World, a: Action, r: RunId)
    requires Enabled(s, a) && r !in s.store && r in Apply(s, a).store
    ensures Apply(s, a).store[r].status != NeedsRetry && Apply(s, a).store[r].attempt == 0
  {}

  lemma {:induction false} ScheduleNeverRetries(s: World, trace: seq<Action>, r: RunId)
    requires Sound(s) && Schedule(s, trace) && NeverRetried(s, r) && Request(r, NeedsRetry) !in trace
    ensures NeverRetried(After(s, trace), r)
    decreases |trace|
  {
    if trace != [] {
      StepKeepsSound(s, trace[0]);
      StepNeverRetries(s, trace[0], r);
      ScheduleNeverRetries(Apply(s, trace[0]), trace[1..], r);
    }
  }

  /** No worker and no handler sends a run to retry unless the API did so before. */
  lemma OnlyRequestsSendToRetry(trace: seq<Action>, r: RunId)
    requires Schedule(Start(), trace) && Request(r, NeedsRetry) !in trace && r in After(Start(), trace).store
    ensures var row := After(Start(), trace).store[r]; row.status != NeedsRetry && row.attempt == 0
  {
    ScheduleNeverRetries(Start(), trace, r);
  }

  /** The runs that a retry worker has still to deal with. */
  function HeldForRetry(pc: Feeder): seq<RunId> {
    match pc
    case Recycling(todo) => todo
    case Enqueueing(r, false, rest) => [r] + rest
    case _ => []
  }

  ghost predicate MayRecycle(store: Store, pc: Feeder) {
    && |HeldForRetry(pc)| <= 25
    && forall r | r in HeldForRetry(pc) :: r in store && store[r].engine == Eks && store[r].attempt > 0
  }

  ghost predicate AllMayRecycle(s: World) {
    && (forall r | r in s.store && s.store[r].status == NeedsRetry :: s.store[r].attempt > 0)
    && forall f :: MayRecycle(s.store, s.FeederOf(f))
  }

  /** Whatever happens to a row, its engine stays and its attempts are not forgotten. */
  lemma AbsorbingRemembers(before: Store, after: Store, r: RunId, retry: bool)
    requires r in before && Absorbs(before, after, r, retry)
    ensures after[r].engine == before[r].engine && after[r].attempt >= before[r].attempt
    ensures (before[r].status == NeedsRetry ==> before[r].attempt > 0) ==> (after[r].status == NeedsRetry ==> after[r].attempt > 0)
  {}

  lemma StepKeepsEngine(s: World, a: Action, r: RunId)
    requires Sound(s) && Enabled(s, a) && r in s.store && (s.store[r].status == NeedsRetry ==> s.store[r].attempt > 0)
    ensures var t := Apply(s, a).store;
            && r in t && t[r].engine == s.store[r].engine && t[r].attempt >= s.store[r].attempt
            && (t[r].status == NeedsRetry ==> t[r].attempt > 0)
  {
    StepAbsorbs(s, a, r);
    AbsorbingRemembers(s.store, Apply(s, a).store, r, SendsToRetry(s, a, r));
  }

  lemma FeederMayRecycle(s: World, f: ActorId, step: FeederStep)
    requires CanFeed(s, f, step) && MayRecycle(s.store, s.FeederOf(f))
    requires forall r | r in s.store && s.store[r].status == NeedsRetry :: s.store[r].attempt > 0
    ensures MayRecycle(s.store, Fed(s, f, step).FeederOf(f))
  {}

  lemma FeedersMayRecycle(s: World, a: Action, f: ActorId)
    requires Enabled(s, a) && AllMayRecycle(s)
    ensures MayRecycle(s.store, Apply(s, a).FeederOf(f))
  {
    assert MayRecycle(s.store, s.FeederOf(f));
    if a.Feed? && a.f == f {
      FeederMayRecycle(s, f, a.feed);
    }
  }

  lemma StepMayRecycle(s: World, a: Action)
    requires Sound(s) && Enabled(s, a) && AllMayRecycle(s)
    ensures AllMayRecycle(Apply(s, a))
  {
    var t := Apply(s, a);
    forall r | r in t.store && t.store[r].status == NeedsRetry ensures t.store[r].attempt > 0 {
      if r in s.store { StepKeepsEngine(s, a, r); } else { NewIsNotRetried(s, a, r); }
    }
    forall f ensures MayRecycle(t.store, t.FeederOf(f)) {
      FeedersMayRecycle(s, a, f);
      forall r | r in HeldForRetry(t.FeederOf(f)) ensures r in t.store && t.store[r].engine == Eks && t.store[r].attempt > 0 {
        StepKeepsEngine(s, a, r);
      }
    }
  }

  lemma {:induction false} ScheduleMayRecycle(s: World, trace: seq<Action>)
    requires Sound(s) && Schedule(s, trace) && AllMayRecycle(s)
    ensures AllMayRecycle(After(s, trace))
    decreases |trace|
  {
    if trace != [] {
      StepKeepsSound(s, trace[0]);
      StepMayRecycle(s, trace[0]);
      ScheduleMayRecycle(Apply(s, trace[0]), trace[1..]);
    }
  }

  /** Whatever the schedule, a retry worker holds at most 25 runs, and these are EKS runs that were sent
      to retry. */
  lemma RetriesWereAskedFor(trace: seq<Action>, f: ActorId)
    requires Schedule(Start(), trace)
    ensures var s := After(Start(), trace);
            var held := HeldForRetry(s.FeederOf(f));
            |held| <= 25 && forall r | r in held :: r in s.store && s.store[r].engine == Eks && s.store[r].attempt > 0
  {
    ScheduleMayRecycle(Start(), trace);
    assert MayRecycle(After(Start(), trace).store, After(Start(), trace).FeederOf(f));
  }

  // ---- What an answer of the back end leads to ----

  /** After a retryable error, heard of or not, store and queue are as before, and the worker can only
      take a message again. */
  lemma RetryableLeavesNoTrace(s: World, w: ActorId, outcome: Outcome)
    requires CanSubmit(s, w, Execute(outcome)) && (outcome == Unavailable || outcome == LostReply)
    ensures var t := Submitted(s, w, Execute(outcome));
            && t.store == s.store && t.queue == s.queue
            && forall step :: CanSubmit(t, w, step) <==> step.Crash? || (step.Receive? && step.m < |t.queue.sent|)
  {}

  /** Any other answer is stored. If the run is still QUEUED by then, whatever the others did, it
      becomes STOPPED exactly if the submission was refused, and RUNNING exactly if a job was created. */
  lemma AnswerDecidesStatus(s: World, w: ActorId, outcome: Outcome, u: World)
    requires CanSubmit(s, w, Execute(outcome)) && outcome != Unavailable && outcome != LostReply
    requires u.SubmitterOf(w) == Submitted(s, w, Execute(outcome)).SubmitterOf(w)
    requires s.queue.sent <= u.queue.sent && u.HasStatus(s.queue.sent[s.SubmitterOf(w).message], Queued)
    ensures CanSubmit(u, w, StoreLaunch)
    ensures var r := s.queue.sent[s.SubmitterOf(w).message];
            Submitted(u, w, StoreLaunch).HasStatus(r,
              if outcome == Invalid || outcome == EmrRejected then Stopped else if outcome == Created then Running else Queued)
  {}

  // ---- No run is lost ----

  /** How often the run has been sent to retry. */
  function AttemptOf(s: World, r: RunId): nat { if r in s.store then s.store[r].attempt else 0 }

  /** The worker will delete the message without its run having been launched, or its executable
      found missing, in the given attempt. */
  predicate Dooms(pc: Submitter, attempt: nat, m: MessageId) {
    pc == Acking(m) || pc == Launched(m, Queued) || (pc.AckingMissing? && pc.message == m && pc.attempt != attempt)
  }

  ghost predicate Waiting(s: World, m: MessageId, r: RunId) {
    && m in s.queue.live && m < |s.queue.sent| && s.queue.sent[m] == r
    && forall w :: !Dooms(s.SubmitterOf(w), AttemptOf(s, r), m)
  }

  ghost predicate Promised(s: World, f: ActorId, r: RunId) {
    s.FeederOf(f).Enqueueing? && s.FeederOf(f).run == r
  }

  /** Somebody still owes the run a launch, or it has had one in this attempt, or its executable
      was found to be gone. */
  ghost predicate Covered(s: World, r: RunId) {
    || r in s.launched
    || r in s.abandoned
    || (exists f :: Promised(s, f, r))
    || (exists m :: Waiting(s, m, r))
  }

  ghost predicate Lost(s: World, r: RunId) { s.HasStatus(r, Queued) && !Covered(s, r) }

  ghost predicate NothingLost(s: World) {
    forall r | r in s.store :: !Lost(s, r)
  }

  /** Which run the step is about. */
  predicate About(s: World, a: Action, r: RunId) {
    match a
    case Feed(f, _) => s.FeederOf(f).Enqueueing? && s.FeederOf(f).run == r
    case Submit(w, _) =>
      var pc := s.SubmitterOf(w);
      !pc.Idle? && pc.message < |s.queue.sent| && s.queue.sent[pc.message] == r
    case Watch(o, _) => s.ObserverOf(o).Saw? && s.ObserverOf(o).run == r
    case Request(q, _) => q == r
    case DeleteJob(_) => false
  }

  /** The step is a slip that matters to `r`: it writes QUEUED over NEEDS_RETRY, or `r` is QUEUED. */
  predicate SlipsOn(s: World, a: Action, r: RunId)
    requires Enabled(s, a)
  {
    && SlipOf(s, a) != NoSlip && About(s, a, r)
    && (SlipOf(s, a) in {EnqueueSlip, ReadSlip, ExecutableSlip, WriteSlip, OldJobSlip} ==> s.HasStatus(r, Queued))
  }

  /** After the step its worker will delete the message for nothing. */
  predicate Spoils(s: World, a: Action, m: MessageId) {
    && a.Submit? && !s.SubmitterOf(a.w).Idle? && s.SubmitterOf(a.w).message == m
    && (a.submit.ReadRowFails? || a.submit.StoreLaunchFails? || a.submit == Execute(AlreadyExists)
        || (a.submit == FindExecutable(LookupFails) && Handles(s, s.SubmitterOf(a.w))
            && s.store[s.queue.sent[m]].kind != Unknown))
  }

  /** `r` is covered by something else than what the step takes away. */
  ghost predicate CoveredOtherwise(s: World, a: Action, r: RunId) {
    || r in s.launched
    || r in s.abandoned
    || (exists f :: Promised(s, f, r) && a != Feed(f, CallFails))
    || (exists m :: Waiting(s, m, r) && !Spoils(s, a, m))
  }

  /** A promised message, once sent, is one that no worker knows yet. */
  lemma EnqueuedWaits(s: World, f: ActorId, r: RunId)
    requires Sound(s) && Promised(s, f, r)
    ensures Waiting(Fed(s, f, Enqueue), |s.queue.sent|, r)
  {
    FeedMovesOne(s, f, Enqueue);
    var t := Fed(s, f, Enqueue);
    forall w ensures !Dooms(t.SubmitterOf(w), AttemptOf(t, r), |s.queue.sent|) {
      assert SoundSubmitter(s.queue, s.SubmitterOf(w)) && t.SubmitterOf(w) == s.SubmitterOf(w);
    }
  }

  lemma FeedKeepsCovered(s: World, f: ActorId, step: FeederStep, r: RunId)
    requires Sound(s) && CanFeed(s, f, step) && CoveredOtherwise(s, Feed(f, step), r)
    ensures Covered(Fed(s, f, step), r)
  {
    var t := Fed(s, f, step);
    FeedMovesOne(s, f, step);
    assert forall w :: t.SubmitterOf(w) == s.SubmitterOf(w);
    if m :| Waiting(s, m, r) {
      assert Waiting(t, m, r);
    } else if g :| Promised(s, g, r) && Feed(f, step) != Feed(g, CallFails) {
      if g != f {
        assert Promised(t, g, r);
      } else if step.Enqueue? {
        EnqueuedWaits(s, f, r);
      }
    }
  }

  lemma FailedEnqueueUncovers(s: World, f: ActorId, r: RunId)
    requires CanFeed(s, f, CallFails) && Covered(Fed(s, f, CallFails), r)
    ensures CoveredOtherwise(s, Feed(f, CallFails), r)
  {
    var t := Fed(s, f, CallFails);
    assert forall w :: t.SubmitterOf(w) == s.SubmitterOf(w);
    if m :| Waiting(t, m, r) {
      assert Waiting(s, m, r);
    } else if g :| Promised(t, g, r) {
      assert Promised(s, g, r) && g != f;
    }
  }

  /** A feeder only writes QUEUED where it promises a message. */
  lemma FeedQueues(s: World, f: ActorId, step: FeederStep, r: RunId)
    requires Sound(s) && CanFeed(s, f, step) && Fed(s, f, step).HasStatus(r, Queued)
    ensures s.HasStatus(r, Queued) || Promised(Fed(s, f, step), f, r)
  {}

  lemma FeedLosesIff(s: World, f: ActorId, step: FeederStep, r: RunId)
    requires Sound(s) && CanFeed(s, f, step) && r in s.store && !Lost(s, r)
    ensures Lost(Fed(s, f, step), r) <==> SlipsOn(s, Feed(f, step), r) && !CoveredOtherwise(s, Feed(f, step), r)
  {
    var a := Feed(f, step);
    if CoveredOtherwise(s, a, r) {
      FeedKeepsCovered(s, f, step, r);
    } else if step.CallFails? {
      if Covered(Fed(s, f, step), r) { FailedEnqueueUncovers(s, f, r); }
      if s.HasStatus(r, Queued) && !About(s, a, r) {
        OnlySubjectLoses(s, a, r);
      }
    } else if s.HasStatus(r, Queued) {
      OnlySubjectLoses(s, a, r);
    } else if Fed(s, f, step).HasStatus(r, Queued) {
      FeedQueues(s, f, step, r);
    }
  }

  /** Only what the step is about can lose its cover. */
  lemma OnlySubjectLoses(s: World, a: Action, r: RunId)
    requires Covered(s, r)
    requires !About(s, a, r) || (a.Feed? && !a.feed.CallFails?)
    ensures CoveredOtherwise(s, a, r)
  {
    if m :| Waiting(s, m, r) {
      assert !Spoils(s, a, m);
    } else if f :| Promised(s, f, r) {
      assert a != Feed(f, CallFails);
    }
  }

  lemma StillWaits(s: World, w: ActorId, step: SubmitterStep, m: MessageId, r: RunId)
    requires Sound(s) && CanSubmit(s, w, step) && Waiting(s, m, r) && !Spoils(s, Submit(w, step), m)
    requires Submitted(s, w, step).HasStatus(r, Queued) && (s.HasStatus(r, Queued) || step.StoreLaunch?)
    ensures Covered(Submitted(s, w, step), r)
  {
    var t := Submitted(s, w, step);
    SubmitMovesOne(s, w, step);
    assert !Dooms(s.SubmitterOf(w), AttemptOf(s, r), m) && SoundSubmitter(s.queue, s.SubmitterOf(w));
    assert r in s.store && AttemptOf(t, r) == AttemptOf(s, r);
    if step.Ack? && s.SubmitterOf(w).message == m {
      assert r in t.abandoned;
    } else if step.Execute? && step.outcome == EmrStarted && s.SubmitterOf(w).message == m {
      assert r in t.launched;
    } else {
      assert !Dooms(t.SubmitterOf(w), AttemptOf(t, r), m);
      assert forall v :: !Dooms(t.SubmitterOf(v), AttemptOf(t, r), m);
      assert Waiting(t, m, r);
    }
  }

  lemma SubmitKeepsCovered(s: World, w: ActorId, step: SubmitterStep, r: RunId)
    requires Sound(s) && CanSubmit(s, w, step) && CoveredOtherwise(s, Submit(w, step), r)
    requires Submitted(s, w, step).HasStatus(r, Queued) && (s.HasStatus(r, Queued) || step.StoreLaunch?)
    ensures Covered(Submitted(s, w, step), r)
  {
    var t := Submitted(s, w, step);
    assert SoundSubmitter(s.queue, s.SubmitterOf(w));
    SubmitMovesOne(s, w, step);
    if f :| Promised(s, f, r) {
      assert Promised(t, f, r);
    } else if m :| Waiting(s, m, r) && !Spoils(s, Submit(w, step), m) {
      StillWaits(s, w, step, m, r);
    }
  }

  /** What covers a run after a slip has covered it before, by something else. */
  lemma SlipCoversNothing(s: World, w: ActorId, step: SubmitterStep, r: RunId)
    requires Sound(s) && CanSubmit(s, w, step) && SlipOf(s, Submit(w, step)) != NoSlip
    requires About(s, Submit(w, step), r) && Covered(Submitted(s, w, step), r)
    ensures CoveredOtherwise(s, Submit(w, step), r)
  {
    var t := Submitted(s, w, step);
    SubmitMovesOne(s, w, step);
    if m :| Waiting(t, m, r) {
      assert AttemptOf(t, r) == AttemptOf(s, r) && !Dooms(t.SubmitterOf(w), AttemptOf(t, r), m);
      forall v | v != w ensures !Dooms(s.SubmitterOf(v), AttemptOf(s, r), m) {
        assert !Dooms(t.SubmitterOf(v), AttemptOf(t, r), m);
      }
      assert Waiting(s, m, r) && !Spoils(s, Submit(w, step), m);
    } else if f :| Promised(t, f, r) {
      assert Promised(s, f, r);
    }
  }

  /** Submit workers write QUEUED over a different status only by a slip. */
  lemma SubmitQueues(s: World, w: ActorId, step: SubmitterStep, r: RunId)
    requires Sound(s) && CanSubmit(s, w, step) && Submitted(s, w, step).HasStatus(r, Queued)
    ensures s.HasStatus(r, Queued) || (SlipOf(s, Submit(w, step)) == LaunchSlip && About(s, Submit(w, step), r))
  {
    assert SoundSubmitter(s.queue, s.SubmitterOf(w));
    assert r in s.store && s.store[r].Sound();
  }

  lemma SubmitSlipKeepsQueued(s: World, w: ActorId, step: SubmitterStep, r: RunId)
    requires Sound(s) && CanSubmit(s, w, step) && SlipsOn(s, Submit(w, step), r)
    ensures Submitted(s, w, step).HasStatus(r, Queued)
  {}

  lemma SubmitLosesIff(s: World, w: ActorId, step: SubmitterStep, r: RunId)
    requires Sound(s) && CanSubmit(s, w, step) && r in s.store && !Lost(s, r)
    ensures Lost(Submitted(s, w, step), r) <==> SlipsOn(s, Submit(w, step), r) && !CoveredOtherwise(s, Submit(w, step), r)
  {
    var a, t := Submit(w, step), Submitted(s, w, step);
    if SlipsOn(s, a, r) {
      SubmitSlipKeepsQueued(s, w, step, r);
      if Covered(t, r) { SlipCoversNothing(s, w, step, r); }
      if CoveredOtherwise(s, a, r) { SubmitKeepsCovered(s, w, step, r); }
    } else if t.HasStatus(r, Queued) {
      SubmitQueues(s, w, step, r);
      HarmlessKeepsOther(s, w, step, r);
      SubmitKeepsCovered(s, w, step, r);
    }
  }

  lemma HarmlessKeepsOther(s: World, w: ActorId, step: SubmitterStep, r: RunId)
    requires Sound(s) && CanSubmit(s, w, step) && s.HasStatus(r, Queued) && Covered(s, r) && !SlipsOn(s, Submit(w, step), r)
    ensures CoveredOtherwise(s, Submit(w, step), r)
  {
    var a := Submit(w, step);
    if About(s, a, r) {
      if m :| Waiting(s, m, r) {
        assert Spoils(s, a, m) ==> r in s.launched;
      } else if f :| Promised(s, f, r) {
        assert a != Feed(f, CallFails);
      }
    } else {
      OnlySubjectLoses(s, a, r);
    }
  }

  /** Any other step leaves actors and messages alone, and ends an attempt only by NEEDS_RETRY. */
  lemma OtherKeepsCover(s: World, a: Action, r: RunId)
    requires Sound(s) && Enabled(s, a) && !a.Feed? && !a.Submit? && r in s.store
    requires Apply(s, a).store[r].status != NeedsRetry || s.store[r] == Apply(s, a).store[r]
    ensures Covered(Apply(s, a), r) <==> Covered(s, r)
    ensures CoveredOtherwise(s, a, r) <==> Covered(s, r)
  {
    var t := Apply(s, a);
    assert forall w :: t.SubmitterOf(w) == s.SubmitterOf(w);
    assert AttemptOf(t, r) == AttemptOf(s, r);
    assert forall f :: Promised(s, f, r) <==> Promised(t, f, r);
    assert forall m :: Waiting(s, m, r) <==> Waiting(t, m, r);
    assert r in t.launched <==> r in s.launched;
    assert r in t.abandoned <==> r in s.abandoned;
  }

  lemma OtherLosesIff(s: World, a: Action, r: RunId)
    requires Sound(s) && Enabled(s, a) && !a.Feed? && !a.Submit? && r in s.store && !Lost(s, r)
    ensures Lost(Apply(s, a), r) <==> SlipsOn(s, a, r) && !CoveredOtherwise(s, a, r)
  {
    var t := Apply(s, a);
    assert s.store[r].Sound();
    if t.HasStatus(r, Queued) {
      OtherKeepsCover(s, a, r);
    }
  }

  /** A step loses a run if and only if it is a slip about it and nothing else covers the run: the
      run is QUEUED, and the enqueue call fails, or the read of the row or of the executable, or the
      write of the launch, or the submission meets an old job; or the run is in NEEDS_RETRY, and QUEUED is written over
      that by anyone but the retry worker. */
  lemma StepLosesIff(s: World, a: Action, r: RunId)
    requires Sound(s) && Enabled(s, a) && r in s.store && !Lost(s, r)
    ensures Lost(Apply(s, a), r) <==> SlipsOn(s, a, r) && !CoveredOtherwise(s, a, r)
  {
    match a {
      case Feed(f, step) => FeedLosesIff(s, f, step, r);
      case Submit(w, step) => SubmitLosesIff(s, w, step, r);
      case _ => OtherLosesIff(s, a, r);
    }
  }

  lemma CreatedIsPromised(s: World, a: Action, r: RunId)
    requires Enabled(s, a) && r !in s.store && r in Apply(s, a).store
    ensures Covered(Apply(s, a), r)
  {
    assert Promised(Apply(s, a), a.f, r);
  }

  lemma StepLosesNothing(s: World, a: Action)
    requires Sound(s) && NothingLost(s) && Enabled(s, a) && Careful(s, a)
    ensures NothingLost(Apply(s, a))
  {
    forall r | r in Apply(s, a).store ensures !Lost(Apply(s, a), r) {
      if r in s.store {
        StepLosesIff(s, a, r);
      } else {
        CreatedIsPromised(s, a, r);
      }
    }
  }

  lemma {:induction false} ScheduleLosesNothing(s: World, trace: seq<Action>)
    requires Sound(s) && NothingLost(s) && Schedule(s, trace) && AllCareful(s, trace)
    ensures NothingLost(After(s, trace))
    decreases |trace|
  {
    if trace != [] {
      StepKeepsSound(s, trace[0]);
      StepLosesNothing(s, trace[0]);
      ScheduleLosesNothing(Apply(s, trace[0]), trace[1..]);
    }
  }

  /** In every state of every careful schedule, in the first attempt of a run or in a later one, a
      run stored as QUEUED has an undeleted message that no worker is about to throw away, or is
      about to be enqueued, or has reached a back end in this attempt, or was acknowledged in it
      because its executable was missing. */
  lemma NoRunIsLost(trace: seq<Action>, r: RunId)
    requires Schedule(Start(), trace) && AllCareful(Start(), trace)
    requires After(Start(), trace).HasStatus(r, Queued)
    ensures Covered(After(Start(), trace), r)
  {
    ScheduleLosesNothing(Start(), trace);
    assert !Lost(After(Start(), trace), r);
  }

  /** Whenever a run is lost, some step before was a slip about it while nothing else covered it. */
  lemma {:induction false} EveryLossIsASlip(s: World, trace: seq<Action>, r: RunId) returns (k: nat)
    requires Sound(s) && !Lost(s, r) && Schedule(s, trace) && Lost(After(s, trace), r)
    ensures k < |trace| && Schedule(s, trace[..k]) && Enabled(After(s, trace[..k]), trace[k])
    ensures SlipsOn(After(s, trace[..k]), trace[k], r) && !CoveredOtherwise(After(s, trace[..k]), trace[k], r)
    decreases |trace|
  {
    var t, rest := Apply(s, trace[0]), trace[1..];
    StepKeepsSound(s, trace[0]);
    if Lost(t, r) {
      k := 0;
      if r in s.store {
        StepLosesIff(s, trace[0], r);
      } else {
        CreatedIsPromised(s, trace[0], r);
      }
    } else {
      var i := EveryLossIsASlip(t, rest, r);
      k := i + 1;
      assert trace[..k] == [trace[0]] + rest[..i] && ([trace[0]] + rest[..i])[1..] == rest[..i];
    }
  }

  // ---- A covered run can still be launched ----

  lemma Prepend(s: World, a: Action, rest: seq<Action>)
    requires Enabled(s, a) && Careful(s, a)
    requires Schedule(Apply(s, a), rest) && AllCareful(Apply(s, a), rest)
    ensures Schedule(s, [a] + rest) && AllCareful(s, [a] + rest)
    ensures After(s, [a] + rest) == After(Apply(s, a), rest)
  {
    assert ([a] + rest)[1..] == rest;
  }

  lemma FreshActor(taken: set<ActorId>) returns (w: ActorId)
    ensures forall v | v in taken :: v < w
  {
    if taken == {} {
      w := 0;
    } else {
      var v :| v in taken;
      var u := FreshActor(taken - {v});
      w := if v < u then u else v + 1;
      assert forall x | x in taken :: x == v || x in taken - {v};
    }
  }

  /** The state of a run after a launch that went well. */
  predicate IsLaunched(s: World, r: RunId) {
    && r in s.store && r in s.launched
    && (s.store[r].Target() == Kubernetes ==> r in s.cloud.jobs && s.store[r].status == Running)
  }

  lemma ReportAndAck(s: World, w: ActorId, m: MessageId) returns (steps: seq<Action>)
    requires s.SubmitterOf(w).Launched? && s.SubmitterOf(w).message == m && Handles(s, s.SubmitterOf(w))
    requires s.HasStatus(s.queue.sent[m], Queued) && s.SubmitterOf(w).report != NeedsRetry
    ensures Schedule(s, steps) && AllCareful(s, steps)
    ensures var t := After(s, steps);
            && t.cloud == s.cloud && t.launched == s.launched && m !in t.queue.live
            && t.store == s.store[s.queue.sent[m] := s.store[s.queue.sent[m]].Update(s.SubmitterOf(w).report)]
  {
    var store, ack := Submit(w, StoreLaunch), Submit(w, Ack);
    var s1 := Apply(s, store);
    Prepend(s1, ack, []);
    Prepend(s, store, [ack]);
    steps := [store] + [ack];
  }

  lemma PreparedLaunches(s: World, w: ActorId, m: MessageId, r: RunId) returns (steps: seq<Action>)
    requires s.SubmitterOf(w) == Prepared(m) && Handles(s, Prepared(m)) && s.queue.sent[m] == r
    requires s.store[r].status == Queued && r !in s.cloud.jobs
    ensures Schedule(s, steps) && AllCareful(s, steps) && IsLaunched(After(s, steps), r)
    ensures m !in After(s, steps).queue.live
  {
    var execute := Submit(w, Execute(if s.store[r].Target() == Kubernetes then Created else EmrStarted));
    var rest := ReportAndAck(Apply(s, execute), w, m);
    Prepend(s, execute, rest);
    steps := [execute] + rest;
  }

  /** A waiting message leads to a launch. A job left from an earlier attempt goes first, as the
      cluster removes finished jobs after their time to live. */
  lemma DeliveryLaunches(s: World, m: MessageId, r: RunId) returns (steps: seq<Action>)
    requires Sound(s) && s.HasStatus(r, Queued) && s.store[r].kind != Unknown && Waiting(s, m, r)
    ensures Schedule(s, steps) && AllCareful(s, steps) && IsLaunched(After(s, steps), r)
    ensures m !in After(s, steps).queue.live
  {
    if r in s.cloud.jobs {
      var clear := DeleteJob(r);
      StepKeepsSound(s, clear);
      var t := Apply(s, clear);
      assert forall w :: t.SubmitterOf(w) == s.SubmitterOf(w);
      var rest := FreeDeliveryLaunches(t, m, r);
      Prepend(s, clear, rest);
      steps := [clear] + rest;
    } else {
      steps := FreeDeliveryLaunches(s, m, r);
    }
  }

  lemma FreeDeliveryLaunches(s: World, m: MessageId, r: RunId) returns (steps: seq<Action>)
    requires s.HasStatus(r, Queued) && s.store[r].kind != Unknown
    requires m < |s.queue.sent| && s.queue.sent[m] == r && r !in s.cloud.jobs
    ensures Schedule(s, steps) && AllCareful(s, steps) && IsLaunched(After(s, steps), r)
    ensures m !in After(s, steps).queue.live
  {
    var w := FreshActor(s.submitters.Keys);
    var receive, read := Submit(w, Receive(m)), Submit(w, ReadRow);
    var t := Apply(s, receive);
    var rest := RunnableLaunches(Apply(t, read), w, m, r);
    Prepend(t, read, rest);
    Prepend(s, receive, [read] + rest);
    steps := [receive] + ([read] + rest);
  }

  lemma RunnableLaunches(s: World, w: ActorId, m: MessageId, r: RunId) returns (steps: seq<Action>)
    requires s.SubmitterOf(w) == Runnable(m) && Handles(s, Runnable(m)) && s.queue.sent[m] == r
    requires s.store[r].status == Queued && s.store[r].kind != Unknown && r !in s.cloud.jobs
    ensures Schedule(s, steps) && AllCareful(s, steps) && IsLaunched(After(s, steps), r)
    ensures m !in After(s, steps).queue.live
  {
    var find := Submit(w, FindExecutable(Found));
    var rest := PreparedLaunches(Apply(s, find), w, m, r);
    Prepend(s, find, rest);
    steps := [find] + rest;
  }

  /** From every state a careful schedule can reach, every run stored as QUEUED with a known
      executable kind that was neither launched nor abandoned in this attempt, its first or a later
      one, can still be launched: what keeps it from being lost really leads to a job. */
  lemma EveryQueuedRunCanStillLaunch(trace: seq<Action>, r: RunId) returns (steps: seq<Action>)
    requires Schedule(Start(), trace) && AllCareful(Start(), trace)
    requires var s := After(Start(), trace);
             s.HasStatus(r, Queued) && s.store[r].kind != Unknown && r !in s.launched && r !in s.abandoned
    ensures Schedule(After(Start(), trace), steps) && AllCareful(After(Start(), trace), steps)
    ensures IsLaunched(After(After(Start(), trace), steps), r)
  {
    var s := After(Start(), trace);
    ScheduleKeepsSound(Start(), trace);
    NoRunIsLost(trace, r);
    if m :| Waiting(s, m, r) {
      steps := DeliveryLaunches(s, m, r);
    } else {
      var f :| Promised(s, f, r);
      var enqueue := Feed(f, Enqueue);
      EnqueuedWaits(s, f, r);
      StepKeepsSound(s, enqueue);
      var rest := DeliveryLaunches(Apply(s, enqueue), |s.queue.sent|, r);
      Prepend(s, enqueue, rest);
      steps := [enqueue] + rest;
    }
  }

  // ---- A delivery among others launches its run ----

  /** Some worker, a handler or the API has taken the run past QUEUED. */
  predicate Underway(s: World, r: RunId) {
    r in s.store && s.store[r].status in {Pending, Running, Stopped}
  }

  /** A back end has started the run in this attempt, or it has left QUEUED. */
  predicate Served(s: World, r: RunId) { r in s.launched || Underway(s, r) }

  /** If worker `w` moves, it does not crash or take another message, finds the executable, gets an
      answer from the back end, and does not slip. Everybody else may do anything. */
  predicate Fruitful(s: World, a: Action, w: ActorId)
    requires Enabled(s, a)
  {
    a.Submit? && a.w == w ==>
      && !a.submit.Crash? && !a.submit.Receive? && Careful(s, a)
      && (a.submit.FindExecutable? ==> a.submit.answer == Found)
      && (a.submit.Execute? ==> a.submit.outcome != Unavailable)
  }

  predicate AllFruitful(s: World, trace: seq<Action>, w: ActorId)
    requires Schedule(s, trace)
    decreases |trace|
  {
    trace == [] || (Fruitful(s, trace[0], w) && AllFruitful(Apply(s, trace[0]), trace[1..], w))
  }

  /** How far the worker has got with the message, and what it has achieved by then. */
  predicate Delivering(s: World, w: ActorId, m: MessageId, r: RunId) {
    var pc := s.SubmitterOf(w);
    match pc
    case Idle => Served(s, r)
    case Launched(n, report) => n == m && (report == Queued ==> Served(s, r))
    case Acking(n) => n == m && Served(s, r)
    case AckingMissing(_, _) => false
    case _ => pc.message == m
  }

  /** What stays true of the run and its message. */
  ghost predicate InAttempt(s: World, m: MessageId, r: RunId) {
    && Sound(s) && m < |s.queue.sent| && s.queue.sent[m] == r
    && r in s.store && s.store[r].kind != Unknown && s.store[r].status != NeedsRetry
  }

  lemma StepKeepsInAttempt(s: World, a: Action, m: MessageId, r: RunId)
    requires InAttempt(s, m, r) && Enabled(s, a) && !SendsToRetry(s, a, r)
    ensures InAttempt(Apply(s, a), m, r)
  {
    var t := StepNeverLowers(s, a, r);
    StepAbsorbs(s, a, r);
    assert s.store[r].Sound();
    match a {
      case Feed(f, step) => FeedAround(s, f, step);
      case Submit(w, step) => SubmitAround(s, w, step);
      case _ =>
    }
  }

  lemma StepKeepsServed(s: World, a: Action, r: RunId)
    requires Sound(s) && Enabled(s, a) && !SendsToRetry(s, a, r) && r in s.store && Served(s, r)
    ensures Served(Apply(s, a), r)
  {
    if Underway(s, r) {
      var t := StepNeverLowers(s, a, r);
      NotBelowStaysUnderway(s.store, t.store, r);
    } else {
      LaunchedStays(s, a, r);
    }
  }

  lemma NotBelowStaysUnderway(before: Store, after: Store, r: RunId)
    requires NotBelow(before, after, r) && before[r].status in {Pending, Running, Stopped}
    ensures after[r].status in {Pending, Running, Stopped}
  {}

  lemma LaunchedStays(s: World, a: Action, r: RunId)
    requires Sound(s) && Enabled(s, a) && !SendsToRetry(s, a, r) && r in s.launched
    ensures r in Apply(s, a).launched
  {
    if a.Submit? { assert SoundSubmitter(s.queue, s.SubmitterOf(a.w)); }
  }

  lemma OwnStepDelivers(s: World, w: ActorId, step: SubmitterStep, m: MessageId, r: RunId)
    requires InAttempt(s, m, r) && Delivering(s, w, m, r) && CanSubmit(s, w, step) && Fruitful(s, Submit(w, step), w)
    requires Served(s, r) ==> Served(Submitted(s, w, step), r)
    ensures Delivering(Submitted(s, w, step), w, m, r)
  {
    assert s.store[r].Sound() && SoundSubmitter(s.queue, s.SubmitterOf(w));
  }

  lemma StepDelivers(s: World, a: Action, w: ActorId, m: MessageId, r: RunId)
    requires InAttempt(s, m, r) && Delivering(s, w, m, r)
    requires Enabled(s, a) && Fruitful(s, a, w) && !SendsToRetry(s, a, r)
    ensures Delivering(Apply(s, a), w, m, r)
  {
    if Served(s, r) { StepKeepsServed(s, a, r); }
    match a {
      case Submit(v, step) =>
        if v == w { OwnStepDelivers(s, w, step, m, r); } else { SubmitMovesOne(s, v, step); }
      case Feed(f, step) => FeedMovesOne(s, f, step);
      case Watch(o, step) => WatchMovesOne(s, o, step);
      case _ =>
    }
  }

  lemma {:induction false} ScheduleDelivers(s: World, trace: seq<Action>, w: ActorId, m: MessageId, r: RunId)
    requires InAttempt(s, m, r) && Delivering(s, w, m, r)
    requires Schedule(s, trace) && NeverSendsToRetry(s, trace, r) && AllFruitful(s, trace, w)
    ensures Delivering(After(s, trace), w, m, r)
    decreases |trace|
  {
    if trace != [] {
      StepKeepsInAttempt(s, trace[0], m, r);
      StepDelivers(s, trace[0], w, m, r);
      ScheduleDelivers(Apply(s, trace[0]), trace[1..], w, m, r);
    }
  }

  /** In every schedule, interleaved and failing as it may be on the side of all others: a worker
      that has received a message and goes through with it leaves the run launched or past QUEUED,
      unless the run is sent to retry meanwhile. */
  lemma DeliveryAmongOthers(s: World, trace: seq<Action>, w: ActorId, m: MessageId, r: RunId)
    requires Sound(s) && s.SubmitterOf(w) == Got(m) && s.queue.sent[m] == r
    requires s.store[r].kind != Unknown && s.store[r].status != NeedsRetry
    requires Schedule(s, trace) && NeverSendsToRetry(s, trace, r) && AllFruitful(s, trace, w)
    requires After(s, trace).SubmitterOf(w) == Idle
    ensures Served(After(s, trace), r)
  {
    ScheduleDelivers(s, trace, w, m, r);
  }
}
