/** EMR job events about one run, delivered at least once and handled by any number of workers:
    each reads the run, overwrites the status in its copy, writes the copy back, then deletes the
    event (worker/events_worker.go). */
module EmrEvents {
  import opened Statuses

  type EventId = nat
  type HandlerId = nat

  datatype JobState = Submitted | JobRunning | Completed | Failed | SomethingElse

  /** The status a handler puts into the run it has read; for other states it puts none. */
  function StatusFor(state: JobState, read: Status): Status {
    match state
    case Completed => Stopped
    case JobRunning => Running
    case Failed => Stopped
    case Submitted => Pending
    case SomethingElse => read
  }

  datatype Handler = Free | Holding(event: EventId, read: Status) | Done(event: EventId)

  datatype World = World(
    status: Status,
    born: Status,
    events: seq<JobState>,   // every event ever sent, by id
    live: set<EventId>,      // the events not deleted
    handled: set<EventId>,   // the events some handler has stored
    others: set<Status>,     // what everybody else has written
    handlers: map<HandlerId, Handler>
  ) {
    function HandlerOf(h: HandlerId): Handler { if h in handlers then handlers[h] else Free }
    function Moves(h: HandlerId, pc: Handler): World { this.(handlers := handlers[h := pc]) }
  }

  function Start(born: Status): World { World(born, born, [], {}, {}, {}, map[]) }

  datatype Action =
    | Arrive(state: JobState)
    | Read(h: HandlerId, e: EventId)
    | Write(h: HandlerId)
    | Delete(h: HandlerId)
    | Crash(h: HandlerId)
    | WriteByOther(s: Status)

  predicate Enabled(w: World, a: Action) {
    match a
    case Arrive(_) => true
    case Read(h, e) => w.HandlerOf(h).Free? && e < |w.events|
    case Write(h) => w.HandlerOf(h).Holding? && w.HandlerOf(h).event < |w.events|
    case Delete(h) => w.HandlerOf(h).Done?
    case Crash(_) => true
    case WriteByOther(s) => s != NeedsRetry
  }

  function Apply(w: World, a: Action): World
    requires Enabled(w, a)
  {
    match a
    case Arrive(state) => w.(events := w.events + [state], live := w.live + {|w.events|})
    case Read(h, e) => w.Moves(h, Holding(e, w.status))
    case Write(h) =>
      var pc := w.HandlerOf(h);
      w.(status := Merge(w.status, StatusFor(w.events[pc.event], pc.read)),
         handled := w.handled + {pc.event}).Moves(h, Done(pc.event))
    case Delete(h) => w.(live := w.live - {w.HandlerOf(h).event}).Moves(h, Free)
    case Crash(h) => w.Moves(h, Free)
    case WriteByOther(s) => w.(status := Merge(w.status, s), others := w.others + {s})
  }

  predicate Schedule(w: World, trace: seq<Action>)
    decreases |trace|
  {
    trace == [] || (Enabled(w, trace[0]) && Schedule(Apply(w, trace[0]), trace[1..]))
  }

  function After(w: World, trace: seq<Action>): World
    requires Schedule(w, trace)
    decreases |trace|
  {
    if trace == [] then w else After(Apply(w, trace[0]), trace[1..])
  }

  /** Everything that ought to be in the status: the initial one, what the handled events say
      about themselves, and what others wrote. What handlers had read is not in it. */
  ghost function Evidence(w: World): set<Status>
    requires forall e | e in w.handled :: e < |w.events|
  {
    {w.born} + w.others + set e | e in w.handled && w.events[e] != SomethingElse :: StatusFor(w.events[e], w.born)
  }

  ghost predicate SoundHandler(w: World, pc: Handler) {
    match pc
    case Free => true
    case Holding(e, read) => e < |w.events| && read.Valid() && read != NeedsRetry && !Later(read, w.status)
    case Done(e) => e in w.handled
  }

  ghost predicate Sound(w: World) {
    && (forall e | e in w.handled :: e < |w.events|)
    && w.born.Valid() && w.born != NeedsRetry
    && IsHighest(Evidence(w), w.status)
    && (forall e | 0 <= e < |w.events| :: e in w.live || e in w.handled)
    && (forall h :: SoundHandler(w, w.HandlerOf(h)))
  }

  ghost function HandledStates(w: World): set<JobState> {
    set e | e in w.handled && e < |w.events| :: w.events[e]
  }

  /** Absorbing a status keeps the stored one the highest of the evidence with the status added;
      one that is no higher adds nothing. */
  lemma MergeKeepsHighest(evidence: set<Status>, s: Status, written: Status, after: set<Status>)
    requires IsHighest(evidence, s) && written != NeedsRetry
    requires after == evidence + {written}
      || (after == evidence && written.Valid() && !Later(written, s))
    ensures IsHighest(after, Merge(s, written))
  {}

  lemma WriteKeepsHighest(w: World, h: HandlerId)
    requires Sound(w) && Enabled(w, Write(h))
    ensures var t := Apply(w, Write(h));
            (forall e | e in t.handled :: e < |t.events|) && IsHighest(Evidence(t), t.status)
  {
    var t := Apply(w, Write(h));
    var pc := w.HandlerOf(h);
    assert SoundHandler(w, pc);
    var state := w.events[pc.event];
    var written := StatusFor(state, pc.read);
    if state == SomethingElse {
      assert Evidence(t) == Evidence(w);
    } else {
      assert written == StatusFor(state, w.born);
      assert Evidence(t) == Evidence(w) + {written};
    }
    MergeKeepsHighest(Evidence(w), w.status, written, Evidence(t));
  }

  lemma StepKeepsSound(w: World, a: Action)
    requires Sound(w) && Enabled(w, a)
    ensures Sound(Apply(w, a))
  {
    var t := Apply(w, a);
    if a.Write? {
      WriteKeepsHighest(w, a.h);
    } else if a.WriteByOther? {
      assert Evidence(t) == Evidence(w) + {a.s};
      MergeKeepsHighest(Evidence(w), w.status, a.s, Evidence(t));
    } else {
      assert Evidence(t) == Evidence(w);
    }
    assert w.born in Evidence(w) && !Later(w.status, t.status);
    if a.Delete? { assert SoundHandler(w, w.HandlerOf(a.h)); }
    forall h ensures SoundHandler(t, t.HandlerOf(h)) {
      assert SoundHandler(w, w.HandlerOf(h));
    }
  }

  lemma {:induction false} ScheduleKeepsSound(w: World, trace: seq<Action>)
    requires Sound(w) && Schedule(w, trace)
    ensures Sound(After(w, trace))
    decreases |trace|
  {
    if trace != [] {
      StepKeepsSound(w, trace[0]);
      ScheduleKeepsSound(Apply(w, trace[0]), trace[1..]);
    }
  }

  lemma Reachable(born: Status, trace: seq<Action>)
    requires born.Valid() && born != NeedsRetry && Schedule(Start(born), trace)
    ensures Sound(After(Start(born), trace))
  {
    assert Evidence(Start(born)) == {born};
    ScheduleKeepsSound(Start(born), trace);
  }

  /** Under every interleaving, with redeliveries and crashes, the status is the highest of the
      initial one, the handled events and the writes of others; no deleted event outranks it. */
  lemma StatusJoinsHandledEvents(born: Status, trace: seq<Action>)
    requires born.Valid() && born != NeedsRetry && Schedule(Start(born), trace)
    ensures var w := After(Start(born), trace);
            && (forall e | e in w.handled :: e < |w.events|)
            && IsHighest(Evidence(w), w.status)
            && (forall e | 0 <= e < |w.events| && e !in w.live && w.events[e] != SomethingElse ::
                  !Later(StatusFor(w.events[e], born), w.status))
  {
    Reachable(born, trace);
    BornIsFixed(Start(born), trace);
    var w := After(Start(born), trace);
    forall e | 0 <= e < |w.events| && e !in w.live && w.events[e] != SomethingElse
      ensures !Later(StatusFor(w.events[e], born), w.status)
    {
      assert StatusFor(w.events[e], w.born) in Evidence(w);
    }
  }

  /** Some event with this state was stored. */
  ghost predicate Handled(w: World, state: JobState) {
    exists e :: e in w.handled && e < |w.events| && w.events[e] == state
  }

  /** Others, or whoever created the run, have written this status. */
  predicate Given(w: World, s: Status) { s == w.born || s in w.others }

  /** In terms of the events: STOPPED exactly once a COMPLETED or FAILED event was handled, before that
      RUNNING exactly once a RUNNING one was, before that PENDING exactly once a SUBMITTED one was,
      unless others had the run there already. Nothing else stops it, and no other event counts. */
  lemma StatusByEvents(born: Status, trace: seq<Action>)
    requires born.Valid() && born != NeedsRetry && Schedule(Start(born), trace)
    ensures var w := After(Start(born), trace);
            w.status ==
              if Handled(w, Completed) || Handled(w, Failed) || Given(w, Stopped) then Stopped
              else if Handled(w, JobRunning) || Given(w, Running) then Running
              else if Handled(w, Submitted) || Given(w, Pending) then Pending
              else Queued
  {
    Reachable(born, trace);
    var w := After(Start(born), trace);
    OthersNeverRetry(Start(born), trace);
    EvidenceByEvents(w);
  }

  /** A handler that gets through without the others in between: the event is stored and deleted. One
      without a job state we know leaves any status as it is, NEEDS_RETRY included. */
  lemma HandledInOneGo(w: World, h: HandlerId, e: EventId)
    requires w.HandlerOf(h) == Free && e < |w.events|
    ensures var trace := [Read(h, e), Write(h), Delete(h)];
            && Schedule(w, trace)
            && var t := After(w, trace);
               && e in t.handled && t.live == w.live - {e} && t.HandlerOf(h) == Free
               && (w.events[e] == SomethingElse ==> t.status == w.status)
  {
    var a, b, c := Read(h, e), Write(h), Delete(h);
    var u := Apply(w, a);
    var v := Apply(u, b);
    var t := Apply(v, c);
    assert Schedule(t, []) && After(t, []) == t;
    assert [c][1..] == [] && [b, c][1..] == [c] && [a, b, c][1..] == [b, c];
    assert Schedule(v, [c]) && After(v, [c]) == t;
    assert Schedule(u, [b, c]) && After(u, [b, c]) == t;
  }

  lemma EvidenceByEvents(w: World)
    requires forall e | e in w.handled :: e < |w.events|
    ensures Stopped in Evidence(w) <==> Handled(w, Completed) || Handled(w, Failed) || Given(w, Stopped)
    ensures Running in Evidence(w) <==> Handled(w, JobRunning) || Given(w, Running)
    ensures Pending in Evidence(w) <==> Handled(w, Submitted) || Given(w, Pending)
    ensures Queued in Evidence(w) <==> Given(w, Queued)
    ensures NeedsRetry in Evidence(w) <==> Given(w, NeedsRetry)
  {}

  lemma {:induction false} OthersNeverRetry(w: World, trace: seq<Action>)
    requires Schedule(w, trace) && NeedsRetry !in w.others
    ensures NeedsRetry !in After(w, trace).others
    decreases |trace|
  {
    if trace != [] { OthersNeverRetry(Apply(w, trace[0]), trace[1..]); }
  }

  lemma {:induction false} BornIsFixed(w: World, trace: seq<Action>)
    requires Schedule(w, trace)
    ensures After(w, trace).born == w.born
    decreases |trace|
  {
    if trace != [] { BornIsFixed(Apply(w, trace[0]), trace[1..]); }
  }

  /** Two histories that handled events with the same states agree on the status, whatever the
      order, the repetitions, the number of handlers and the stale copies written back. */
  lemma SameEventsSameStatus(born: Status, a: seq<Action>, b: seq<Action>)
    requires born.Valid() && born != NeedsRetry && Schedule(Start(born), a) && Schedule(Start(born), b)
    requires var v, w := After(Start(born), a), After(Start(born), b);
             HandledStates(v) == HandledStates(w) && v.others == w.others
    ensures After(Start(born), a).status == After(Start(born), b).status
  {
    var v, w := After(Start(born), a), After(Start(born), b);
    Reachable(born, a);
    Reachable(born, b);
    BornIsFixed(Start(born), a);
    BornIsFixed(Start(born), b);
    SameStates(v, w);
    SameStates(w, v);
    HighestIsUnique(Evidence(v), v.status, w.status);
  }

  lemma SameStates(v: World, w: World)
    requires (forall e | e in v.handled :: e < |v.events|) && (forall e | e in w.handled :: e < |w.events|)
    requires HandledStates(v) == HandledStates(w)
    requires v.others == w.others && v.born == w.born
    ensures Evidence(v) <= Evidence(w)
  {
    forall s | s in Evidence(v) ensures s in Evidence(w) {
      if s != v.born && s !in v.others {
        var e :| e in v.handled && v.events[e] != SomethingElse && s == StatusFor(v.events[e], v.born);
        assert v.events[e] in HandledStates(v);
        var d :| d in w.handled && w.events[d] == v.events[e];
      }
    }
  }
}
