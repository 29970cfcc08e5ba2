/** The life of a run as a protocol between the store, an at-least-once queue, the execution
    back ends and any number of workers. Every transition is one atomic effect of one actor;
    actors keep what they have read, however stale, between their transitions. */
module Lifecycle {
  import opened Statuses

  type RunId = string
  type MessageId = nat
  type ActorId = nat

  datatype Engine = Eks | Spark
  datatype ExecutableKind = Definition | Template | Unknown
  datatype BackEnd = Kubernetes | Emr

  /** The columns of a task row that steer the protocol. The rest is history: the status the row was
      created with, every status written to it since, and how often that was NEEDS_RETRY. */
  datatype Row = Row(
    status: Status, engine: Engine, kind: ExecutableKind, born: Status, writes: seq<Status>, attempt: nat) {
    /** Templates always go to the Kubernetes engine, definitions to the engine of the run. */
    function Target(): BackEnd {
      if kind == Template || engine == Eks then Kubernetes else Emr
    }

    function Update(s: Status): Row {
      this.(status := Merge(status, s), writes := writes + [s], attempt := attempt + if s == NeedsRetry then 1 else 0)
    }

    ghost predicate Sound() {
      born.Valid() && status.Valid() && status == Replay(born, writes)
    }
  }

  type Store = map<RunId, Row>

  /** Every message ever sent, named by its position, and the ones not deleted. */
  datatype Queue = Queue(sent: seq<RunId>, live: set<MessageId>) {
    function Send(r: RunId): Queue { Queue(sent + [r], live + {|sent|}) }
    function Delete(m: MessageId): Queue { Queue(sent, live - {m}) }
  }

  /** Kubernetes jobs are named after their run. The rest is history: successful creations and
      deletions that found a job. */
  datatype Cloud = Cloud(jobs: set<RunId>, created: multiset<RunId>, deleted: multiset<RunId>) {
    function CreateJob(r: RunId): Cloud {
      Cloud(jobs + {r}, created + multiset{r}, deleted)
    }

    function DeleteJob(r: RunId): Cloud {
      if r in jobs then this.(jobs := jobs - {r}, deleted := deleted + multiset{r}) else this
    }

    ghost predicate Sound() {
      forall r :: created[r] == deleted[r] + if r in jobs then 1 else 0
    }
  }

  /** Whoever puts runs on the queue: a request that creates a run, or a retry worker with the
      rest of its listing. */
  datatype Feeder =
    | AtRest
    | Enqueueing(run: RunId, isNew: bool, rest: seq<RunId>)
    | Stamping(run: RunId)
    | Recycling(todo: seq<RunId>)

  /** A submit worker, between two of its effects. */
  datatype Submitter =
    | Idle
    | Got(message: MessageId)
    | Runnable(message: MessageId)
    | Prepared(message: MessageId)
    | Launched(message: MessageId, report: Status)
    | Acking(message: MessageId)
    | AckingMissing(message: MessageId, attempt: nat)  // the attempt in which the executable was missing

  /** A status poller or event handler holding the run row it has read. */
  datatype Observer = Blind | Saw(run: RunId, snapshot: Status)

  datatype World = World(
    store: Store,
    queue: Queue,
    cloud: Cloud,
    launched: set<RunId>,   // runs that some back end has started in the current attempt
    abandoned: set<RunId>,  // runs acknowledged in it because their executable was missing
    feeders: map<ActorId, Feeder>,
    submitters: map<ActorId, Submitter>,
    observers: map<ActorId, Observer>
  ) {
    function FeederOf(f: ActorId): Feeder { if f in feeders then feeders[f] else AtRest }
    function SubmitterOf(w: ActorId): Submitter { if w in submitters then submitters[w] else Idle }
    function ObserverOf(o: ActorId): Observer { if o in observers then observers[o] else Blind }
    function Feeding(f: ActorId, pc: Feeder): World { this.(feeders := feeders[f := pc]) }
    function Submitting(w: ActorId, pc: Submitter): World { this.(submitters := submitters[w := pc]) }

    /** One row-locked `UpdateRun`, as far as the status goes. NEEDS_RETRY ends the attempt, and
        what was done in it no longer counts. */
    function Update(r: RunId, s: Status): World
      requires r in store
    {
      var over := if s == NeedsRetry then {r} else {};
      this.(store := store[r := store[r].Update(s)], launched := launched - over, abandoned := abandoned - over)
    }

    predicate HasStatus(r: RunId, s: Status) { r in store && store[r].status == s }
  }

  function Start(): World {
    World(map[], Queue([], {}), Cloud({}, multiset{}, multiset{}), {}, {}, map[], map[], map[])
  }

  datatype FeederStep =
    | Create(r: RunId, engine: Engine, kind: ExecutableKind)
    | Enqueue
    | Stamp
    | ListForRetry(listed: seq<RunId>)
    | Recycle
    | CallFails

  /** How the execution engine answered. `LostReply` created the job but reported a retryable error. */
  datatype Outcome = Created | LostReply | AlreadyExists | Invalid | Unavailable | EmrStarted | EmrRejected

  /** What comes of reading the executable of a run. */
  datatype Lookup = Found | Missing | LookupFails

  datatype SubmitterStep =
    | Receive(m: MessageId)
    | ReadRow
    | ReadRowFails
    | FindExecutable(answer: Lookup)
    | Execute(outcome: Outcome)
    | StoreLaunch
    | StoreLaunchFails
    | Ack
    | AckFails
    | Crash

  datatype ObserverStep = Observe(r: RunId) | Report(s: Status) | ReportFails

  datatype Action =
    | Feed(f: ActorId, feed: FeederStep)
    | Submit(w: ActorId, submit: SubmitterStep)
    | Watch(o: ActorId, watch: ObserverStep)
    | Request(r: RunId, s: Status)  // UpdateStatus by the API, and STOPPED by a termination
    | DeleteJob(r: RunId)

  const RETRY_BATCH := 25

  /** A retry worker goes on to the next run of its listing, if there is one. */
  function Continue(todo: seq<RunId>): Feeder { if todo == [] then AtRest else Recycling(todo) }

  // ---- Creating requests and retry workers ----

  predicate CanFeed(s: World, f: ActorId, step: FeederStep) {
    var pc := s.FeederOf(f);
    match step
    case Create(r, _, _) => pc == AtRest && r !in s.store
    case Enqueue => pc.Enqueueing?
    case Stamp => pc.Stamping? && pc.run in s.store
    case ListForRetry(listed) =>
      && pc == AtRest
      && |listed| <= RETRY_BATCH
      && forall r | r in listed :: r in s.store && s.store[r].status == NeedsRetry && s.store[r].engine == Eks
    case Recycle => pc.Recycling? && pc.todo != [] && pc.todo[0] in s.store
    case CallFails => pc != AtRest
  }

  function Fed(s: World, f: ActorId, step: FeederStep): World
    requires CanFeed(s, f, step)
  {
    var pc := s.FeederOf(f);
    match step
    case Create(r, engine, kind) =>
      s.(store := s.store[r := Row(Queued, engine, kind, Queued, [], 0)]).Feeding(f, Enqueueing(r, true, []))
    case Enqueue =>
      s.(queue := s.queue.Send(pc.run)).Feeding(f, if pc.isNew then Stamping(pc.run) else Continue(pc.rest))
    case Stamp => s.Update(pc.run, Other("")).Feeding(f, AtRest)
    case ListForRetry(listed) => s.Feeding(f, Continue(listed))
    case Recycle => s.Update(pc.todo[0], Queued).Feeding(f, Enqueueing(pc.todo[0], false, pc.todo[1..]))
    case CallFails => s.Feeding(f, AtRest)
  }

  // ---- Submit workers ----

  /** The worker holds a message about a stored run. */
  predicate Handles(s: World, pc: Submitter) {
    !pc.Idle? && pc.message < |s.queue.sent| && s.queue.sent[pc.message] in s.store
  }

  /** The back end decides the outcome: only a run with a job gets "already exists". */
  predicate Possible(cloud: Cloud, row: Row, r: RunId, outcome: Outcome) {
    match outcome
    case Created => row.Target() == Kubernetes && r !in cloud.jobs
    case LostReply => row.Target() == Kubernetes && r !in cloud.jobs
    case AlreadyExists => row.Target() == Kubernetes && r in cloud.jobs
    case Invalid => row.Target() == Kubernetes
    case Unavailable => row.Target() == Kubernetes
    case EmrStarted => row.Target() == Emr
    case EmrRejected => row.Target() == Emr
  }

  predicate CanSubmit(s: World, w: ActorId, step: SubmitterStep) {
    var pc := s.SubmitterOf(w);
    match step
    case Receive(m) => pc == Idle && m < |s.queue.sent|
    case ReadRow => pc.Got? && Handles(s, pc)
    case ReadRowFails => pc.Got?
    case FindExecutable(_) => pc.Runnable? && Handles(s, pc)
    case Execute(outcome) =>
      && pc.Prepared? && Handles(s, pc)
      && Possible(s.cloud, s.store[s.queue.sent[pc.message]], s.queue.sent[pc.message], outcome)
    case StoreLaunch => pc.Launched? && Handles(s, pc)
    case StoreLaunchFails => pc.Launched?
    case Ack => (pc.Acking? || pc.AckingMissing?) && Handles(s, pc)
    case AckFails => pc.Acking? || pc.AckingMissing?
    case Crash => true
  }

  /** What `Execute` leaves in the cluster. */
  function Executed(cloud: Cloud, r: RunId, outcome: Outcome): Cloud {
    if outcome == Created || outcome == LostReply then cloud.CreateJob(r) else cloud
  }

  predicate Starts(outcome: Outcome) { outcome == Created || outcome == LostReply || outcome == EmrStarted }

  /** What the submit worker does next: retryable errors are dropped without a trace, refusals
      are reported as STOPPED, and a job that exists already is reported with the status read. */
  function Reaction(m: MessageId, outcome: Outcome): Submitter {
    match outcome
    case Created => Launched(m, Running)
    case LostReply => Idle
    case AlreadyExists => Launched(m, Queued)
    case Invalid => Launched(m, Stopped)
    case Unavailable => Idle
    case EmrStarted => Launched(m, Queued)
    case EmrRejected => Launched(m, Stopped)
  }

  function Submitted(s: World, w: ActorId, step: SubmitterStep): World
    requires CanSubmit(s, w, step)
  {
    var pc := s.SubmitterOf(w);
    match step
    case Receive(m) => s.Submitting(w, Got(m))
    case ReadRow =>
      var status := s.store[s.queue.sent[pc.message]].status;
      s.Submitting(w, if status == Queued then Runnable(pc.message) else Acking(pc.message))
    case ReadRowFails => s.Submitting(w, Acking(pc.message))
    case FindExecutable(answer) =>
      var row := s.store[s.queue.sent[pc.message]];
      s.Submitting(w, if row.kind == Unknown then Idle
                      else if answer == Found then Prepared(pc.message)
                      else if answer == Missing then AckingMissing(pc.message, row.attempt)
                      else Acking(pc.message))
    case Execute(outcome) =>
      var r := s.queue.sent[pc.message];
      s.(cloud := Executed(s.cloud, r, outcome),
         launched := if Starts(outcome) then s.launched + {r} else s.launched).Submitting(w, Reaction(pc.message, outcome))
    case StoreLaunch => s.Update(s.queue.sent[pc.message], pc.report).Submitting(w, Acking(pc.message))
    case StoreLaunchFails => s.Submitting(w, Acking(pc.message))
    case Ack =>
      var r := s.queue.sent[pc.message];
      s.(queue := s.queue.Delete(pc.message),
         abandoned := if pc.AckingMissing? && pc.attempt == s.store[r].attempt then s.abandoned + {r} else s.abandoned)
      .Submitting(w, Idle)
    case AckFails => s.Submitting(w, Idle)
    case Crash => s.Submitting(w, Idle)
  }

  // ---- Status pollers and event handlers ----

  predicate CanWatch(s: World, o: ActorId, step: ObserverStep) {
    var pc := s.ObserverOf(o);
    match step
    case Observe(r) => r in s.store
    case ReportFails => pc.Saw?
    case Report(st) => pc.Saw? && pc.run in s.store && (st == pc.snapshot || st in {Pending, Running, Stopped})
  }

  function Watched(s: World, o: ActorId, step: ObserverStep): World
    requires CanWatch(s, o, step)
  {
    match step
    case Observe(r) => s.(observers := s.observers[o := Saw(r, s.store[r].status)])
    case ReportFails => s.(observers := s.observers[o := Blind])
    case Report(st) => s.Update(s.ObserverOf(o).run, st).(observers := s.observers[o := Blind])
  }

  // ---- The protocol ----

  predicate Enabled(s: World, a: Action) {
    match a
    case Feed(f, step) => CanFeed(s, f, step)
    case Submit(w, step) => CanSubmit(s, w, step)
    case Watch(o, step) => CanWatch(s, o, step)
    case Request(r, st) => r in s.store && st.Valid()
    case DeleteJob(_) => true
  }

  function Apply(s: World, a: Action): World
    requires Enabled(s, a)
  {
    match a
    case Feed(f, step) => Fed(s, f, step)
    case Submit(w, step) => Submitted(s, w, step)
    case Watch(o, step) => Watched(s, o, step)
    case Request(r, st) => s.Update(r, st)
    case DeleteJob(r) => s.(cloud := s.cloud.DeleteJob(r))
  }

  // ---- Slips ----

  /** What a step may do wrong about a run: the enqueue call, the read of the row, the read of its
      executable or the write of the launch fails; the submission meets a job that is left from an earlier attempt; QUEUED,
      which only the retry worker should write over NEEDS_RETRY, is written over it by the report
      of a launch, by a handler repeating what it read, or through the API. */
  datatype Slip = NoSlip | EnqueueSlip | ReadSlip | ExecutableSlip | WriteSlip | OldJobSlip | LaunchSlip | ReportSlip | RequestSlip

  function SlipOf(s: World, a: Action): Slip
    requires Enabled(s, a)
  {
    match a
    case Feed(f, step) => if step.CallFails? && s.FeederOf(f).Enqueueing? then EnqueueSlip else NoSlip
    case Submit(w, step) =>
      var pc := s.SubmitterOf(w);
      if step.ReadRowFails? then ReadSlip
      else if step == FindExecutable(LookupFails) && s.store[s.queue.sent[pc.message]].kind != Unknown then ExecutableSlip
      else if step.StoreLaunchFails? then WriteSlip
      else if step == Execute(AlreadyExists) && s.queue.sent[pc.message] !in s.launched then OldJobSlip
      else if step.StoreLaunch? && pc.report == Queued && s.HasStatus(s.queue.sent[pc.message], NeedsRetry) then LaunchSlip
      else NoSlip
    case Watch(o, step) => if step == Report(Queued) && s.HasStatus(s.ObserverOf(o).run, NeedsRetry) then ReportSlip else NoSlip
    case Request(r, st) => if st == Queued && s.HasStatus(r, NeedsRetry) then RequestSlip else NoSlip
    case DeleteJob(_) => NoSlip
  }

  /** Submit workers may crash at any point, messages may come again, and handlers may repeat
      anything that is not a QUEUED over NEEDS_RETRY. */
  predicate Careful(s: World, a: Action)
    requires Enabled(s, a)
  {
    SlipOf(s, a) == NoSlip
  }

  /** `trace` is a run of the protocol from `s`. */
  predicate Schedule(s: World, trace: seq<Action>)
    decreases |trace|
  {
    trace == [] || (Enabled(s, trace[0]) && Schedule(Apply(s, trace[0]), trace[1..]))
  }

  predicate AllCareful(s: World, trace: seq<Action>)
    requires Schedule(s, trace)
    decreases |trace|
  {
    trace == [] || (Careful(s, trace[0]) && AllCareful(Apply(s, trace[0]), trace[1..]))
  }

  function After(s: World, trace: seq<Action>): World
    requires Schedule(s, trace)
    decreases |trace|
  {
    if trace == [] then s else After(Apply(s, trace[0]), trace[1..])
  }

  function SlipSet(slip: Slip): set<Slip> { if slip == NoSlip then {} else {slip} }

  /** The kinds of slips on the way. */
  function SlipsOf(s: World, trace: seq<Action>): set<Slip>
    requires Schedule(s, trace)
    decreases |trace|
  {
    if trace == [] then {} else SlipSet(SlipOf(s, trace[0])) + SlipsOf(Apply(s, trace[0]), trace[1..])
  }

  lemma {:induction false} CarefulIff(s: World, trace: seq<Action>)
    requires Schedule(s, trace)
    ensures AllCareful(s, trace) <==> SlipsOf(s, trace) == {}
    decreases |trace|
  {
    if trace != [] {
      var first, rest := SlipSet(SlipOf(s, trace[0])), SlipsOf(Apply(s, trace[0]), trace[1..]);
      CarefulIff(Apply(s, trace[0]), trace[1..]);
      assert first == {} <==> SlipOf(s, trace[0]) == NoSlip by {
        if SlipOf(s, trace[0]) != NoSlip { assert SlipOf(s, trace[0]) in first; }
      }
      assert first + rest == {} <==> first == {} && rest == {};
    }
  }

  lemma {:induction false} SlipsOfBoth(s: World, trace: seq<Action>, more: seq<Action>)
    requires Schedule(s, trace) && Schedule(After(s, trace), more) && Schedule(s, trace + more)
    ensures SlipsOf(s, trace + more) == SlipsOf(s, trace) + SlipsOf(After(s, trace), more)
    decreases |trace|
  {
    if trace == [] {
      assert trace + more == more;
    } else {
      assert (trace + more)[1..] == trace[1..] + more;
      SlipsOfBoth(Apply(s, trace[0]), trace[1..], more);
    }
  }

  lemma {:induction false} Concatenate(s: World, trace: seq<Action>, more: seq<Action>)
    requires Schedule(s, trace) && Schedule(After(s, trace), more)
    ensures Schedule(s, trace + more) && After(s, trace + more) == After(After(s, trace), more)
    ensures AllCareful(s, trace) && AllCareful(After(s, trace), more) ==> AllCareful(s, trace + more)
    decreases |trace|
  {
    if trace == [] {
      assert trace + more == more;
    } else {
      assert (trace + more)[1..] == trace[1..] + more;
      Concatenate(Apply(s, trace[0]), trace[1..], more);
    }
  }
}
