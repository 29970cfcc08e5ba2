/** Terminating a run and everything it spawned (services/execution.go): each job goes through one
    bounded channel to a goroutine started for it, which may put more jobs on the channel before
    it stops its own run. */
module TerminateFanout {
  import opened Statuses

  type RunId = string

  const CAPACITY := 100     // of the channel of jobs
  const LISTING_LIMIT := 1000

  /** Which runs each run spawned. `rank` witnesses that nothing spawns its own ancestor. */
  datatype Family = Family(kids: map<RunId, seq<RunId>>, rank: map<RunId, nat>) {
    function Kids(r: RunId): seq<RunId> { if r in kids then kids[r] else [] }
    function Rank(r: RunId): nat { if r in rank then rank[r] else 0 }

    predicate Acyclic() {
      forall r | r in kids :: forall c | c in kids[r] :: Rank(c) < Rank(r)
    }
  }

  type Ancestry = g: Family | g.Acyclic() witness Family(map[], map[])

  /** A request or a goroutine, between two of its effects. */
  datatype Thread =
    | Calling(run: RunId)
    | Starting
    | Waiting
    | Got(run: RunId)
    | Listing(run: RunId, status: Status)
    | Sending(run: RunId, status: Status, todo: seq<RunId>)
    | Spawning(run: RunId, status: Status, todo: seq<RunId>)
    | Storing(run: RunId)
    | Finished

  datatype World = World(
    status: map<RunId, Status>,
    channel: seq<RunId>,
    threads: seq<Thread>,
    listed: set<RunId>,  // runs whose spawned runs were fetched
    closed: set<RunId>   // runs some goroutine has seen or made STOPPED
  ) {
    function StatusOf(r: RunId): Status { if r in status then status[r] else Other("") }
  }

  /** What the environment answers; `Go` is a step that asks nobody. */
  datatype Answer = Go | Ok | Fails | Lists(runs: seq<RunId>)

  datatype Action = Move(i: nat, answer: Answer) | Interfere(r: RunId, s: Status)

  /** A listing without error: as many of the spawned runs as the limit lets through, in any order. */
  ghost predicate ListsKids(g: Family, r: RunId, runs: seq<RunId>) {
    && multiset(runs) <= multiset(g.Kids(r))
    && |runs| == if |g.Kids(r)| <= LISTING_LIMIT then |g.Kids(r)| else LISTING_LIMIT
  }

  ghost predicate CanMove(g: Family, w: World, t: Thread, answer: Answer) {
    match t
    case Calling(_) => answer == Go && |w.channel| < CAPACITY
    case Starting => answer == Go
    case Waiting => answer == Go && w.channel != []
    case Got(r) => answer == Fails || (answer == Ok && r in w.status)
    case Listing(r, _) => answer == Fails || (answer.Lists? && ListsKids(g, r, answer.runs))
    case Sending(_, _, todo) =>
      if todo != [] then answer == Go && |w.channel| < CAPACITY else answer == Ok || answer == Fails
    case Spawning(_, _, _) => answer == Go
    case Storing(_) => answer == Ok || answer == Fails
    case Finished => false
  }

  ghost predicate Enabled(g: Family, w: World, a: Action) {
    match a
    case Move(i, answer) => i < |w.threads| && CanMove(g, w, w.threads[i], answer)
    case Interfere(_, s) => s != NeedsRetry
  }

  /** Where the thread is after its step. The engine is asked to stop the run unless it was read as
      STOPPED; a run read as QUEUED is stored as STOPPED even if the engine fails. */
  function Next(w: World, t: Thread, answer: Answer): Thread
    requires t.Waiting? ==> w.channel != []
  {
    match t
    case Calling(_) => Starting
    case Starting => Finished
    case Waiting => Got(w.channel[0])
    case Got(r) => if answer == Ok then Listing(r, w.StatusOf(r)) else Finished
    case Listing(r, status) => Sending(r, status, if answer.Lists? then answer.runs else [])
    case Sending(r, status, todo) =>
      if todo != [] then Spawning(r, status, todo[1..])
      else if status != Stopped && (answer == Ok || status == Queued) then Storing(r)
      else Finished
    case Spawning(r, status, todo) => Sending(r, status, todo)
    case _ => Finished
  }

  /** The job the thread puts on the channel, if any. */
  function Sends(t: Thread): seq<RunId> {
    match t
    case Calling(r) => [r]
    case Sending(_, _, todo) => if todo != [] then [todo[0]] else []
    case _ => []
  }

  /** The channel after a step: its first job taken or none, and a job added or none. */
  function Channel(w: World, t: Thread): seq<RunId>
    requires t.Waiting? ==> w.channel != []
  {
    (if t.Waiting? then w.channel[1..] else w.channel) + Sends(t)
  }

  /** The goroutine the thread starts, if any. */
  function Starts(t: Thread): seq<Thread> {
    if t.Starting? || t.Spawning? then [Waiting] else []
  }

  predicate Closes(t: Thread, answer: Answer) {
    (t.Sending? && t.todo == [] && t.status == Stopped) || (t.Storing? && answer == Ok)
  }

  function Moved(g: Family, w: World, i: nat, answer: Answer): World
    requires i < |w.threads| && CanMove(g, w, w.threads[i], answer)
  {
    var t := w.threads[i];
    World(
      if t.Storing? && answer == Ok then w.status[t.run := Merge(w.StatusOf(t.run), Stopped)] else w.status,
      Channel(w, t),
      w.threads[i := Next(w, t, answer)] + Starts(t),
      if t.Listing? && answer.Lists? then w.listed + {t.run} else w.listed,
      if Closes(t, answer) then w.closed + {t.run} else w.closed)
  }

  function Apply(g: Family, w: World, a: Action): World
    requires Enabled(g, w, a)
  {
    match a
    case Move(i, answer) => Moved(g, w, i, answer)
    case Interfere(r, s) => w.(status := w.status[r := Merge(w.StatusOf(r), s)])
  }

  ghost predicate Schedule(g: Family, w: World, trace: seq<Action>)
    decreases |trace|
  {
    trace == [] || (Enabled(g, w, trace[0]) && Schedule(g, Apply(g, w, trace[0]), trace[1..]))
  }

  ghost function After(g: Family, w: World, trace: seq<Action>): World
    requires Schedule(g, w, trace)
    decreases |trace|
  {
    if trace == [] then w else After(g, Apply(g, w, trace[0]), trace[1..])
  }

  /** Any number of termination requests, none of them begun. */
  function Requests(status: map<RunId, Status>, roots: seq<RunId>): World {
    World(status, [], seq(|roots|, i requires 0 <= i < |roots| => Calling(roots[i])), {}, {})
  }

  // ---- Sums over the threads ----

  function Sum(ts: seq<Thread>, f: Thread -> nat): nat {
    if ts == [] then 0 else Sum(ts[..|ts| - 1], f) + f(ts[|ts| - 1])
  }

  lemma {:induction false} SumOfUpdate(ts: seq<Thread>, i: nat, t: Thread, f: Thread -> nat)
    requires i < |ts|
    ensures Sum(ts[i := t], f) + f(ts[i]) == Sum(ts, f) + f(t)
  {
    var n := |ts| - 1;
    if i == n {
      assert ts[i := t][..n] == ts[..n];
    } else {
      assert ts[i := t][..n] == ts[..n][i := t];
      SumOfUpdate(ts[..n], i, t, f);
    }
  }

  lemma SumOfAppend(ts: seq<Thread>, t: Thread, f: Thread -> nat)
    ensures Sum(ts + [t], f) == Sum(ts, f) + f(t)
  {
    assert (ts + [t])[..|ts|] == ts;
  }

  lemma SumOfMove(g: Family, w: World, i: nat, answer: Answer, f: Thread -> nat)
    requires i < |w.threads| && CanMove(g, w, w.threads[i], answer)
    ensures Sum(Moved(g, w, i, answer).threads, f) + f(w.threads[i])
            == Sum(w.threads, f) + f(Next(w, w.threads[i], answer)) + if Starts(w.threads[i]) != [] then f(Waiting) else 0
  {
    var next := w.threads[i := Next(w, w.threads[i], answer)];
    SumOfUpdate(w.threads, i, Next(w, w.threads[i], answer), f);
    if Starts(w.threads[i]) != [] {
      SumOfAppend(next, Waiting, f);
    } else {
      assert next + [] == next;
    }
  }

  lemma {:induction false} SumFindsThread(ts: seq<Thread>, f: Thread -> nat) returns (i: nat)
    requires Sum(ts, f) > 0
    ensures i < |ts| && f(ts[i]) > 0
  {
    var n := |ts| - 1;
    if f(ts[n]) > 0 { i := n; } else { i := SumFindsThread(ts[..n], f); }
  }

  lemma {:induction false} SumIsAtLeast(ts: seq<Thread>, i: nat, f: Thread -> nat)
    requires i < |ts|
    ensures f(ts[i]) <= Sum(ts, f)
  {
    if i < |ts| - 1 { SumIsAtLeast(ts[..|ts| - 1], i, f); }
  }

  // ---- The fan-out never wedges ----

  /** One for every goroutine that waits for a job or is about to be started to wait for one. */
  function Taker(t: Thread): nat {
    if t.Waiting? || t.Starting? || t.Spawning? then 1 else 0
  }

  /** Every job on the channel has its own taker, and there are no others. */
  predicate Balanced(w: World) {
    Sum(w.threads, Taker) == |w.channel| && |w.channel| <= CAPACITY
  }

  lemma StepKeepsBalanced(g: Family, w: World, a: Action)
    requires Balanced(w) && Enabled(g, w, a)
    ensures Balanced(Apply(g, w, a))
  {
    if a.Move? {
      SumOfMove(g, w, a.i, a.answer, Taker);
    }
  }

  ghost predicate CanProceed(g: Family, w: World) {
    exists i: nat, answer :: i < |w.threads| && CanMove(g, w, w.threads[i], answer)
  }

  lemma FirstKids(g: Family, r: RunId) returns (runs: seq<RunId>)
    ensures ListsKids(g, r, runs)
  {
    var kids := g.Kids(r);
    runs := if |kids| <= LISTING_LIMIT then kids else kids[..LISTING_LIMIT];
    assert kids == runs + kids[|runs|..];
  }

  lemma TakerCanMove(g: Family, w: World, i: nat)
    requires Balanced(w) && i < |w.threads| && Taker(w.threads[i]) > 0
    ensures CanMove(g, w, w.threads[i], Go)
  {
    SumIsAtLeast(w.threads, i, Taker);
  }

  lemma BalancedCanProceed(g: Family, w: World, i: nat)
    requires Balanced(w) && i < |w.threads| && w.threads[i] != Finished
    ensures CanProceed(g, w)
  {
    var t := w.threads[i];
    if Taker(t) > 0 {
      TakerCanMove(g, w, i);
    } else if t.Got? || t.Storing? || (t.Sending? && t.todo == []) {
      assert CanMove(g, w, t, Fails);
    } else if t.Listing? {
      var runs := FirstKids(g, t.run);
      assert CanMove(g, w, t, Lists(runs));
    } else if |w.channel| < CAPACITY {
      assert CanMove(g, w, t, Go);
    } else {
      var j := SumFindsThread(w.threads, Taker);
      TakerCanMove(g, w, j);
    }
  }

  lemma {:induction false} ScheduleKeepsBalanced(g: Family, w: World, trace: seq<Action>)
    requires Balanced(w) && Schedule(g, w, trace)
    ensures Balanced(After(g, w, trace))
    decreases |trace|
  {
    if trace != [] {
      StepKeepsBalanced(g, w, trace[0]);
      ScheduleKeepsBalanced(g, Apply(g, w, trace[0]), trace[1..]);
    }
  }

  lemma {:induction false} NoTakersInRequests(ts: seq<Thread>)
    requires forall i | 0 <= i < |ts| :: ts[i].Calling?
    ensures Sum(ts, Taker) == 0
  {
    if ts != [] { NoTakersInRequests(ts[..|ts| - 1]); }
  }

  /** In every state of every schedule, whatever fails and however full the channel, either all
      requests and goroutines have finished and the channel is empty, or somebody can go on. */
  lemma NeverWedged(g: Family, status: map<RunId, Status>, roots: seq<RunId>, trace: seq<Action>)
    requires Schedule(g, Requests(status, roots), trace)
    ensures var w := After(g, Requests(status, roots), trace);
            || CanProceed(g, w)
            || (w.channel == [] && forall i | 0 <= i < |w.threads| :: w.threads[i] == Finished)
  {
    var start := Requests(status, roots);
    NoTakersInRequests(start.threads);
    ScheduleKeepsBalanced(g, start, trace);
    var w := After(g, start, trace);
    if i: nat :| i < |w.threads| && w.threads[i] != Finished {
      BalancedCanProceed(g, w, i);
    } else if w.channel != [] {
      var j := SumFindsThread(w.threads, Taker);
      assert false;
    }
  }

  /** The channel never holds more than a hundred jobs. */
  lemma ChannelIsBounded(g: Family, status: map<RunId, Status>, roots: seq<RunId>, trace: seq<Action>)
    requires Schedule(g, Requests(status, roots), trace)
    ensures var w := After(g, Requests(status, roots), trace);
            && |w.channel| <= 100
            && forall t: Thread | t.Calling? || (t.Sending? && t.todo != []) :: !CanMove(g, w, t, Go) <==> |w.channel| == 100
  {
    NoTakersInRequests(Requests(status, roots).threads);
    ScheduleKeepsBalanced(g, Requests(status, roots), trace);
  }

  /** Once a run's spawned runs are sent on, and the engine was asked to stop it or not, STOPPED is
      stored exactly if the run was read as QUEUED, or neither was it STOPPED already nor did the
      engine fail. */
  lemma StoresIff(g: Family, w: World, i: nat, r: RunId, status: Status, answer: Answer)
    requires i < |w.threads| && w.threads[i] == Sending(r, status, []) && CanMove(g, w, w.threads[i], answer)
    ensures var t := Moved(g, w, i, answer);
            && t.status == w.status && t.channel == w.channel && |t.threads| == |w.threads|
            && t.threads[i] == if status == Queued || (status != Stopped && answer != Fails) then Storing(r) else Finished
  {
    assert w.channel + [] == w.channel;
  }

  /** A goroutine with a run of its own: a failing read ends it; otherwise the listing is sent on, one
      job and one new goroutine at a time, and then it goes by the status it has read, however old. */
  lemma GoesByWhatItRead(w: World, r: RunId, runs: seq<RunId>, later: World, latest: World, answer: Answer)
    ensures Next(w, Got(r), Fails) == Finished
    ensures var listing := Next(w, Got(r), Ok);
            && Next(later, listing, Lists(runs)) == Sending(r, w.StatusOf(r), runs)
            && Next(later, listing, Fails) == Sending(r, w.StatusOf(r), [])
            && Next(latest, Next(later, listing, Fails), answer) ==
                 if w.StatusOf(r) == Queued || (w.StatusOf(r) != Stopped && answer == Ok) then Storing(r) else Finished
    ensures runs != [] ==>
              && Sends(Sending(r, w.StatusOf(r), runs)) == [runs[0]]
              && Next(later, Sending(r, w.StatusOf(r), runs), Go) == Spawning(r, w.StatusOf(r), runs[1..])
              && Starts(Spawning(r, w.StatusOf(r), runs[1..])) == [Waiting]
              && Next(latest, Spawning(r, w.StatusOf(r), runs[1..]), Go) == Sending(r, w.StatusOf(r), runs[1..])
  {}

  // ---- It terminates ----

  /** The size of the tree of runs below and including `r`. A run reached along two paths counts
      twice: it gets two jobs. */
  function TreeSize(g: Ancestry, r: RunId): nat
    decreases g.Rank(r), 1 + |g.Kids(r)|
  {
    1 + ForestSize(g, g.Kids(r), g.Rank(r))
  }

  function ForestSize(g: Ancestry, runs: seq<RunId>, bound: nat): nat
    requires forall c | c in runs :: g.Rank(c) < bound
    decreases bound, |runs|
  {
    if runs == [] then 0 else TreeSize(g, runs[0]) + ForestSize(g, runs[1..], bound)
  }

  function Sizes(g: Ancestry, runs: seq<RunId>): (n: nat)
    ensures n >= |runs|
  {
    if runs == [] then 0 else TreeSize(g, runs[0]) + Sizes(g, runs[1..])
  }

  lemma {:induction false} ForestIsSizes(g: Ancestry, runs: seq<RunId>, bound: nat)
    requires forall c | c in runs :: g.Rank(c) < bound
    ensures ForestSize(g, runs, bound) == Sizes(g, runs)
  {
    if runs != [] { ForestIsSizes(g, runs[1..], bound); }
  }

  lemma {:induction false} SizesWithout(g: Ancestry, runs: seq<RunId>, i: nat)
    requires i < |runs|
    ensures Sizes(g, runs) == TreeSize(g, runs[i]) + Sizes(g, runs[..i] + runs[i + 1..])
  {
    if i == 0 {
      assert runs[..0] + runs[1..] == runs[1..];
    } else {
      SizesWithout(g, runs[1..], i - 1);
      assert (runs[..i] + runs[i + 1..])[1..] == runs[1..][..i - 1] + runs[1..][i..];
    }
  }

  /** A listing weighs no more than all the spawned runs, and the same if it has them all. */
  lemma {:induction false} SizesOfPart(g: Ancestry, part: seq<RunId>, runs: seq<RunId>)
    requires multiset(part) <= multiset(runs)
    ensures Sizes(g, part) <= Sizes(g, runs)
    ensures |part| == |runs| ==> Sizes(g, part) == Sizes(g, runs)
  {
    if part != [] {
      assert part[0] in multiset(part);
      var i: nat :| i < |runs| && runs[i] == part[0];
      var rest := runs[..i] + runs[i + 1..];
      assert runs == runs[..i] + [runs[i]] + runs[i + 1..];
      assert part == [part[0]] + part[1..];
      assert multiset(runs) == multiset(rest) + multiset{part[0]};
      assert multiset(part) == multiset{part[0]} + multiset(part[1..]);
      forall r ensures multiset(part[1..])[r] <= multiset(rest)[r] {
        assert multiset(part)[r] <= multiset(runs)[r];
      }
      SizesOfPart(g, part[1..], rest);
      SizesWithout(g, runs, i);
    }
  }

  lemma {:induction false} SizesOfAppend(g: Ancestry, runs: seq<RunId>, r: RunId)
    ensures Sizes(g, runs + [r]) == Sizes(g, runs) + TreeSize(g, r)
  {
    if runs != [] {
      assert (runs + [r])[1..] == runs[1..] + [r];
      SizesOfAppend(g, runs[1..], r);
    }
  }

  /** Seven steps per job: send, start, receive, read, list, stop, store. */
  const STEPS := 7

  function Work(g: Ancestry, t: Thread): nat {
    match t
    case Calling(r) => STEPS * TreeSize(g, r)
    case Starting => 1
    case Waiting => 0
    case Got(r) => STEPS * TreeSize(g, r) - 3
    case Listing(r, _) => STEPS * TreeSize(g, r) - 4
    case Sending(_, _, todo) => STEPS * Sizes(g, todo) + 2
    case Spawning(_, _, todo) => STEPS * Sizes(g, todo) + 3
    case Storing(_) => 1
    case Finished => 0
  }

  function ChannelWork(g: Ancestry, channel: seq<RunId>): nat {
    STEPS * Sizes(g, channel) - 2 * |channel|
  }

  ghost function WorkOf(g: Ancestry): Thread -> nat { (t: Thread) => Work(g, t) }

  /** What is left to do: an upper bound on the number of steps to come. */
  ghost function Remaining(g: Ancestry, w: World): nat {
    Sum(w.threads, WorkOf(g)) + ChannelWork(g, w.channel)
  }

  lemma ListingWorks(g: Ancestry, r: RunId, runs: seq<RunId>)
    requires multiset(runs) <= multiset(g.Kids(r))
    ensures 1 + Sizes(g, runs) <= TreeSize(g, r)
    ensures |runs| == |g.Kids(r)| ==> 1 + Sizes(g, runs) == TreeSize(g, r)
  {
    ForestIsSizes(g, g.Kids(r), g.Rank(r));
    SizesOfPart(g, runs, g.Kids(r));
  }

  lemma ChannelSizes(g: Ancestry, w: World, t: Thread)
    requires t.Waiting? ==> w.channel != []
    ensures Sizes(g, Channel(w, t)) + (if t.Waiting? then TreeSize(g, w.channel[0]) else 0)
            == Sizes(g, w.channel) + if Sends(t) != [] then TreeSize(g, Sends(t)[0]) else 0
  {
    if Sends(t) != [] { SizesOfAppend(g, w.channel, Sends(t)[0]); }
    assert w.channel + [] == w.channel;
    if w.channel != [] { assert w.channel[1..] + [] == w.channel[1..]; }
  }

  lemma MoveWorks(g: Ancestry, w: World, t: Thread, answer: Answer)
    requires CanMove(g, w, t, answer)
    ensures Work(g, Next(w, t, answer)) + ChannelWork(g, Channel(w, t)) < Work(g, t) + ChannelWork(g, w.channel)
  {
    if Sends(t) != [] || t.Waiting? {
      ChannelWorks(g, w, t);
    } else {
      assert Channel(w, t) == w.channel;
      QuietMoveWorks(g, w, t, answer);
    }
  }

  lemma QuietMoveWorks(g: Ancestry, w: World, t: Thread, answer: Answer)
    requires CanMove(g, w, t, answer) && Sends(t) == [] && !t.Waiting?
    ensures Work(g, Next(w, t, answer)) < Work(g, t)
  {
    if t.Listing? { ListingWorks(g, t.run, if answer.Lists? then answer.runs else []); }
  }

  /** A job on the channel is two steps from being started and received. */
  lemma ChannelWorks(g: Ancestry, w: World, t: Thread)
    requires Sends(t) != [] || (t.Waiting? && w.channel != [])
    ensures ChannelWork(g, Channel(w, t)) == ChannelWork(g, w.channel) +
            if t.Waiting? then 2 - STEPS * TreeSize(g, w.channel[0]) else STEPS * TreeSize(g, Sends(t)[0]) - 2
  {
    ChannelSizes(g, w, t);
  }

  lemma StepWorks(g: Ancestry, w: World, i: nat, answer: Answer)
    requires i < |w.threads| && CanMove(g, w, w.threads[i], answer)
    ensures Remaining(g, Moved(g, w, i, answer)) < Remaining(g, w)
  {
    MoveWorks(g, w, w.threads[i], answer);
    SumOfMove(g, w, i, answer, WorkOf(g));
  }

  function Moves(trace: seq<Action>): nat {
    if trace == [] then 0 else Moves(trace[1..]) + if trace[0].Move? then 1 else 0
  }

  lemma {:induction false} ScheduleWorks(g: Ancestry, w: World, trace: seq<Action>)
    requires Schedule(g, w, trace)
    ensures Moves(trace) + Remaining(g, After(g, w, trace)) <= Remaining(g, w)
    decreases |trace|
  {
    if trace != [] {
      if trace[0].Move? { StepWorks(g, w, trace[0].i, trace[0].answer); }
      ScheduleWorks(g, Apply(g, w, trace[0]), trace[1..]);
    }
  }

  lemma {:induction false} WorkOfRequests(g: Ancestry, status: map<RunId, Status>, roots: seq<RunId>)
    ensures Remaining(g, Requests(status, roots)) == STEPS * Sizes(g, roots)
  {
    if roots != [] {
      var n := |roots| - 1;
      var front := roots[..n];
      WorkOfRequests(g, status, front);
      assert Requests(status, roots).threads[..n] == Requests(status, front).threads;
      SizesOfAppend(g, front, roots[n]);
      assert roots == front + [roots[n]];
    }
  }

  /** However the goroutines interleave and whatever fails, the fan-out of any number of requests
      takes at most seven steps for every run of the trees below them. */
  lemma Terminates(g: Ancestry, status: map<RunId, Status>, roots: seq<RunId>, trace: seq<Action>)
    requires Schedule(g, Requests(status, roots), trace)
    ensures Moves(trace) <= STEPS * Sizes(g, roots)
  {
    ScheduleWorks(g, Requests(status, roots), trace);
    WorkOfRequests(g, status, roots);
  }

  // ---- It reaches every descendant ----

  predicate Holds(t: Thread, r: RunId) {
    match t
    case Calling(x) => x == r
    case Got(x) => x == r
    case Listing(x, _) => x == r
    case Sending(x, _, _) => x == r
    case Spawning(x, _, _) => x == r
    case Storing(x) => x == r
    case _ => false
  }

  predicate WillSend(t: Thread, r: RunId) {
    (t.Sending? || t.Spawning?) && r in t.todo
  }

  /** The run is stopped, or a job for it is under way, or still to be sent. */
  ghost predicate Claimed(w: World, r: RunId) {
    || r in w.closed
    || r in w.channel
    || (exists i :: 0 <= i < |w.threads| && Holds(w.threads[i], r))
    || (exists i :: 0 <= i < |w.threads| && WillSend(w.threads[i], r))
  }

  predicate SoundThread(w: World, t: Thread) {
    match t
    case Listing(r, status) => r in w.status && (status == Stopped ==> w.status[r] == Stopped)
    case Sending(r, status, _) => r in w.status && r in w.listed && (status == Stopped ==> w.status[r] == Stopped)
    case Spawning(r, status, _) => r in w.status && r in w.listed && (status == Stopped ==> w.status[r] == Stopped)
    case Storing(r) => r in w.status && r in w.listed
    case _ => true
  }

  /** Whoever was found to be a child of a listed run is taken care of. */
  ghost predicate Covering(g: Family, w: World) {
    && (forall r | r in w.status :: w.status[r].Valid())
    && (forall i | 0 <= i < |w.threads| :: SoundThread(w, w.threads[i]))
    && (forall r | r in w.closed :: r in w.listed && r in w.status && w.status[r] == Stopped)
    && (forall r | r in w.listed :: forall c | c in g.Kids(r) :: Claimed(w, c))
  }

  /** No call fails, except that the engine may fail to stop a run that was read as QUEUED; no run has
      spawned more than a listing returns; and the other writers write stored runs only. */
  predicate Clean(g: Family, w: World, a: Action) {
    match a
    case Move(i, answer) =>
      i < |w.threads| ==>
        && (answer == Fails ==> w.threads[i].Sending? && w.threads[i].todo == [] && w.threads[i].status == Queued)
        && (w.threads[i].Listing? ==> |g.Kids(w.threads[i].run)| <= LISTING_LIMIT)
    case Interfere(r, _) => r in w.status
  }

  ghost predicate AllClean(g: Family, w: World, trace: seq<Action>)
    requires Schedule(g, w, trace)
    decreases |trace|
  {
    trace == [] || (Clean(g, w, trace[0]) && AllClean(g, Apply(g, w, trace[0]), trace[1..]))
  }

  lemma MoveKeepsClaimed(g: Family, w: World, i: nat, answer: Answer, r: RunId)
    requires Covering(g, w) && i < |w.threads| && CanMove(g, w, w.threads[i], answer) && Clean(g, w, Move(i, answer))
    requires Claimed(w, r)
    ensures Claimed(Moved(g, w, i, answer), r)
  {
    var t := Moved(g, w, i, answer);
    if r in w.channel {
      if w.threads[i].Waiting? && r == w.channel[0] { assert Holds(t.threads[i], r); }
    } else if j: nat :| j < |w.threads| && Holds(w.threads[j], r) {
      if j == i {
        assert Holds(t.threads[i], r) || r in t.channel || r in t.closed;
      } else {
        assert Holds(t.threads[j], r);
      }
    } else if j: nat :| j < |w.threads| && WillSend(w.threads[j], r) {
      if j == i {
        assert WillSend(t.threads[i], r) || r in t.channel;
      } else {
        assert WillSend(t.threads[j], r);
      }
    }
  }

  lemma FullListing(g: Family, r: RunId, runs: seq<RunId>, c: RunId)
    requires ListsKids(g, r, runs) && |g.Kids(r)| <= LISTING_LIMIT && c in g.Kids(r)
    ensures c in runs
  {
    var missing := multiset(g.Kids(r)) - multiset(runs);
    assert |missing| == 0;
    assert c in multiset(g.Kids(r));
    assert multiset(runs)[c] > 0 by { assert missing[c] == 0; }
  }

  lemma StepKeepsCovering(g: Family, w: World, a: Action)
    requires Covering(g, w) && Enabled(g, w, a) && Clean(g, w, a)
    ensures Covering(g, Apply(g, w, a))
    ensures forall r | Claimed(w, r) :: Claimed(Apply(g, w, a), r)
  {
    var t := Apply(g, w, a);
    forall r | Claimed(w, r) ensures Claimed(t, r) {
      if a.Move? { MoveKeepsClaimed(g, w, a.i, a.answer, r); }
    }
    forall i | 0 <= i < |t.threads| ensures SoundThread(t, t.threads[i]) {
      assert i < |w.threads| ==> SoundThread(w, w.threads[i]);
    }
    forall r, c | r in t.listed && c in g.Kids(r) ensures Claimed(t, c) {
      if r !in w.listed {
        FullListing(g, r, a.answer.runs, c);
        assert WillSend(t.threads[a.i], c);
      }
    }
  }

  lemma {:induction false} ScheduleKeepsCovering(g: Family, w: World, trace: seq<Action>)
    requires Covering(g, w) && Schedule(g, w, trace) && AllClean(g, w, trace)
    ensures Covering(g, After(g, w, trace))
    ensures forall r | Claimed(w, r) :: Claimed(After(g, w, trace), r)
    decreases |trace|
  {
    if trace != [] {
      StepKeepsCovering(g, w, trace[0]);
      ScheduleKeepsCovering(g, Apply(g, w, trace[0]), trace[1..]);
    }
  }

  /** `path` leads from a run to one that it spawned, directly or not; or it is one run long. */
  predicate IsPath(g: Family, path: seq<RunId>) {
    path != [] && forall i | 0 <= i < |path| - 1 :: path[i + 1] in g.Kids(path[i])
  }

  ghost predicate AllFinished(w: World) {
    w.channel == [] && forall i | 0 <= i < |w.threads| :: w.threads[i] == Finished
  }

  lemma {:induction false} PathIsClosed(g: Family, w: World, path: seq<RunId>, i: nat)
    requires Covering(g, w) && AllFinished(w) && IsPath(g, path) && Claimed(w, path[0]) && i < |path|
    ensures path[i] in w.closed
  {
    if i > 0 {
      PathIsClosed(g, w, path, i - 1);
      assert path[i - 1 + 1] in g.Kids(path[i - 1]);
    }
  }

  /** When a clean fan-out has finished, every requested run and every run below one is STOPPED,
      whatever others wrote meanwhile short of NEEDS_RETRY. */
  lemma EveryDescendantIsStopped(g: Family, status: map<RunId, Status>, roots: seq<RunId>, trace: seq<Action>,
                                 path: seq<RunId>)
    requires forall r | r in status :: status[r].Valid()
    requires Schedule(g, Requests(status, roots), trace) && AllClean(g, Requests(status, roots), trace)
    requires AllFinished(After(g, Requests(status, roots), trace))
    requires IsPath(g, path) && path[0] in roots
    ensures var r := path[|path| - 1];
            r in After(g, Requests(status, roots), trace).status && After(g, Requests(status, roots), trace).status[r] == Stopped
  {
    var start := Requests(status, roots);
    var k: nat :| k < |roots| && roots[k] == path[0];
    assert Holds(start.threads[k], path[0]);
    ScheduleKeepsCovering(g, start, trace);
    PathIsClosed(g, After(g, start, trace), path, |path| - 1);
  }

  // ---- A clean fan-out gets there ----

  /** The run was requested, or spawned by such a run, directly or not. */
  ghost predicate Below(g: Family, roots: seq<RunId>, r: RunId) {
    exists path :: IsPath(g, path) && path[0] in roots && path[|path| - 1] == r
  }

  lemma KidsAreBelow(g: Family, roots: seq<RunId>, r: RunId, c: RunId)
    requires Below(g, roots, r) && c in g.Kids(r)
    ensures Below(g, roots, c)
  {
    var path :| IsPath(g, path) && path[0] in roots && path[|path| - 1] == r;
    var longer := path + [c];
    assert IsPath(g, longer) && longer[0] in roots && longer[|longer| - 1] == c;
  }

  ghost predicate ThreadBelow(g: Family, roots: seq<RunId>, t: Thread) {
    && (forall r | Holds(t, r) :: Below(g, roots, r))
    && forall r | WillSend(t, r) :: Below(g, roots, r)
  }

  /** All jobs and goroutines are about runs below the requested ones, and their rows stay. */
  ghost predicate Inside(g: Family, roots: seq<RunId>, status: map<RunId, Status>, w: World) {
    && (forall r | r in w.channel :: Below(g, roots, r))
    && (forall i | 0 <= i < |w.threads| :: ThreadBelow(g, roots, w.threads[i]))
    && status.Keys <= w.status.Keys
  }

  lemma NextIsBelow(g: Family, roots: seq<RunId>, w: World, t: Thread, answer: Answer)
    requires CanMove(g, w, t, answer) && ThreadBelow(g, roots, t) && forall r | r in w.channel :: Below(g, roots, r)
    ensures ThreadBelow(g, roots, Next(w, t, answer)) && forall r | r in Channel(w, t) :: Below(g, roots, r)
  {
    var next := Next(w, t, answer);
    forall r | r in Channel(w, t) ensures Below(g, roots, r) {
      if r !in w.channel { assert Holds(t, r) || WillSend(t, r); }
    }
    forall r | Holds(next, r) ensures Below(g, roots, r) {
      assert Holds(t, r) || (t.Waiting? && r == w.channel[0]);
    }
    forall r | WillSend(next, r) ensures Below(g, roots, r) {
      if t.Listing? {
        assert r in multiset(answer.runs);
        assert Holds(t, t.run) && r in g.Kids(t.run);
        KidsAreBelow(g, roots, t.run, r);
      } else {
        assert WillSend(t, r);
      }
    }
  }

  lemma StepStaysInside(g: Family, roots: seq<RunId>, status: map<RunId, Status>, w: World, a: Action)
    requires Inside(g, roots, status, w) && Enabled(g, w, a)
    ensures Inside(g, roots, status, Apply(g, w, a))
  {
    if a.Move? {
      NextIsBelow(g, roots, w, w.threads[a.i], a.answer);
    }
  }

  lemma {:induction false} ScheduleStaysInside(g: Family, roots: seq<RunId>, status: map<RunId, Status>, w: World, trace: seq<Action>)
    requires Inside(g, roots, status, w) && Schedule(g, w, trace)
    ensures Inside(g, roots, status, After(g, w, trace))
    decreases |trace|
  {
    if trace != [] {
      StepStaysInside(g, roots, status, w, trace[0]);
      ScheduleStaysInside(g, roots, status, Apply(g, w, trace[0]), trace[1..]);
    }
  }

  ghost predicate CanProceedCleanly(g: Family, w: World) {
    exists i: nat, answer :: i < |w.threads| && CanMove(g, w, w.threads[i], answer) && Clean(g, w, Move(i, answer))
  }

  /** Every requested run and every run below one is stored, and none has spawned more than a
      listing returns. */
  ghost predicate AllListed(g: Family, roots: seq<RunId>, status: map<RunId, Status>) {
    forall r | Below(g, roots, r) :: r in status && |g.Kids(r)| <= 1000
  }

  /** The answer with which the thread goes on cleanly, if it does not wait for the channel. */
  lemma CleanAnswer(g: Family, roots: seq<RunId>, status: map<RunId, Status>, w: World, i: nat) returns (answer: Answer)
    requires Inside(g, roots, status, w) && AllListed(g, roots, status) && i < |w.threads| && w.threads[i] != Finished
    requires Taker(w.threads[i]) == 0 && |w.channel| < CAPACITY
    ensures CanMove(g, w, w.threads[i], answer) && Clean(g, w, Move(i, answer))
  {
    var t := w.threads[i];
    assert ThreadBelow(g, roots, t);
    if t.Got? {
      assert Holds(t, t.run);
      answer := Ok;
    } else if t.Listing? {
      assert Holds(t, t.run);
      var runs := FirstKids(g, t.run);
      answer := Lists(runs);
    } else if t.Storing? || (t.Sending? && t.todo == []) {
      answer := Ok;
    } else {
      answer := Go;
    }
  }

  lemma UnfinishedProceedsCleanly(g: Family, roots: seq<RunId>, status: map<RunId, Status>, w: World, i: nat)
    requires Balanced(w) && Inside(g, roots, status, w) && AllListed(g, roots, status)
    requires i < |w.threads| && w.threads[i] != Finished
    ensures CanProceedCleanly(g, w)
  {
    if Taker(w.threads[i]) > 0 {
      TakerCanMove(g, w, i);
      assert Clean(g, w, Move(i, Go));
    } else if |w.channel| < CAPACITY {
      var answer := CleanAnswer(g, roots, status, w, i);
    } else {
      var j := SumFindsThread(w.threads, Taker);
      TakerCanMove(g, w, j);
      assert Clean(g, w, Move(j, Go));
    }
  }

  /** A fan-out whose calls succeed goes on until it has finished, and then every requested run and
      every run below one is STOPPED, whatever others wrote meanwhile short of NEEDS_RETRY. How
      long it can go on is bounded by `Terminates`. */
  lemma CleanFanoutStopsAll(g: Family, status: map<RunId, Status>, roots: seq<RunId>, trace: seq<Action>)
    requires (forall r | r in status :: status[r].Valid()) && AllListed(g, roots, status)
    requires Schedule(g, Requests(status, roots), trace) && AllClean(g, Requests(status, roots), trace)
    requires !CanProceedCleanly(g, After(g, Requests(status, roots), trace))
    ensures var w := After(g, Requests(status, roots), trace);
            AllFinished(w) && forall r | Below(g, roots, r) :: r in w.status && w.status[r] == Stopped
  {
    var start := Requests(status, roots);
    var w := After(g, start, trace);
    RequestsAreInside(g, status, roots);
    NoTakersInRequests(start.threads);
    ScheduleKeepsBalanced(g, start, trace);
    ScheduleStaysInside(g, roots, status, start, trace);
    forall i | 0 <= i < |w.threads| ensures w.threads[i] == Finished {
      if w.threads[i] != Finished { UnfinishedProceedsCleanly(g, roots, status, w, i); }
    }
    if w.channel != [] {
      var j := SumFindsThread(w.threads, Taker);
      assert false;
    }
    forall r | Below(g, roots, r) ensures r in w.status && w.status[r] == Stopped {
      var path :| IsPath(g, path) && path[0] in roots && path[|path| - 1] == r;
      EveryDescendantIsStopped(g, status, roots, trace, path);
    }
  }

  lemma RequestsAreInside(g: Family, status: map<RunId, Status>, roots: seq<RunId>)
    ensures Inside(g, roots, status, Requests(status, roots))
  {
    var start := Requests(status, roots);
    forall i | 0 <= i < |roots| ensures ThreadBelow(g, roots, start.threads[i]) {
      assert IsPath(g, [roots[i]]) && [roots[i]][0] in roots && [roots[i]][|[roots[i]]| - 1] == roots[i];
      assert Below(g, roots, roots[i]);
    }
  }

  // ---- Every job gets exactly one goroutine ----

  /** The goroutines still to be started on behalf of a thread. */
  function ToStart(g: Ancestry, t: Thread): nat {
    match t
    case Calling(r) => TreeSize(g, r)
    case Starting => 1
    case Got(r) => TreeSize(g, r) - 1
    case Listing(r, _) => TreeSize(g, r) - 1
    case Sending(_, _, todo) => Sizes(g, todo)
    case Spawning(_, _, todo) => Sizes(g, todo) + 1
    case _ => 0
  }

  ghost function ToStartOf(g: Ancestry): Thread -> nat { (t: Thread) => ToStart(g, t) }

  ghost function Goroutines(g: Ancestry, w: World): int {
    |w.threads| + Sum(w.threads, ToStartOf(g)) + Sizes(g, w.channel) - |w.channel|
  }

  lemma MoveStarts(g: Ancestry, w: World, t: Thread, answer: Answer)
    requires CanMove(g, w, t, answer) && (t.Listing? ==> |g.Kids(t.run)| <= LISTING_LIMIT)
    requires answer == Fails ==> t.Sending? && t.todo == []
    ensures |Starts(t)| + ToStart(g, Next(w, t, answer)) + Sizes(g, Channel(w, t)) - |Channel(w, t)|
            == ToStart(g, t) + Sizes(g, w.channel) - |w.channel|
  {
    if Sends(t) != [] || t.Waiting? {
      ChannelSizes(g, w, t);
    } else {
      assert Channel(w, t) == w.channel;
      QuietMoveStarts(g, w, t, answer);
    }
  }

  lemma QuietMoveStarts(g: Ancestry, w: World, t: Thread, answer: Answer)
    requires CanMove(g, w, t, answer) && (t.Listing? ==> |g.Kids(t.run)| <= LISTING_LIMIT)
    requires answer == Fails ==> t.Sending? && t.todo == []
    requires Sends(t) == [] && !t.Waiting?
    ensures |Starts(t)| + ToStart(g, Next(w, t, answer)) == ToStart(g, t)
  {
    if t.Listing? { ListingWorks(g, t.run, answer.runs); }
  }

  lemma StepKeepsGoroutines(g: Ancestry, w: World, a: Action)
    requires Enabled(g, w, a) && Clean(g, w, a)
    ensures Goroutines(g, Apply(g, w, a)) == Goroutines(g, w)
  {
    if a.Move? {
      MoveStarts(g, w, w.threads[a.i], a.answer);
      SumOfMove(g, w, a.i, a.answer, ToStartOf(g));
    }
  }

  lemma {:induction false} ScheduleKeepsGoroutines(g: Ancestry, w: World, trace: seq<Action>)
    requires Schedule(g, w, trace) && AllClean(g, w, trace)
    ensures Goroutines(g, After(g, w, trace)) == Goroutines(g, w)
    decreases |trace|
  {
    if trace != [] {
      StepKeepsGoroutines(g, w, trace[0]);
      ScheduleKeepsGoroutines(g, Apply(g, w, trace[0]), trace[1..]);
    }
  }

  lemma {:induction false} ToStartForRequests(g: Ancestry, status: map<RunId, Status>, roots: seq<RunId>)
    ensures Sum(Requests(status, roots).threads, ToStartOf(g)) == Sizes(g, roots)
  {
    if roots != [] {
      var n := |roots| - 1;
      var front := roots[..n];
      ToStartForRequests(g, status, front);
      assert Requests(status, roots).threads[..n] == Requests(status, front).threads;
      SizesOfAppend(g, front, roots[n]);
      assert roots == front + [roots[n]];
    }
  }

  lemma {:induction false} FinishedStartNothing(g: Ancestry, ts: seq<Thread>)
    requires forall i | 0 <= i < |ts| :: ts[i] == Finished
    ensures Sum(ts, ToStartOf(g)) == 0
  {
    if ts != [] { FinishedStartNothing(g, ts[..|ts| - 1]); }
  }

  /** A clean fan-out that has finished has started one goroutine for every run of the trees. */
  lemma OneGoroutinePerJob(g: Ancestry, status: map<RunId, Status>, roots: seq<RunId>, trace: seq<Action>)
    requires Schedule(g, Requests(status, roots), trace) && AllClean(g, Requests(status, roots), trace)
    requires AllFinished(After(g, Requests(status, roots), trace))
    ensures |After(g, Requests(status, roots), trace).threads| == |roots| + Sizes(g, roots)
  {
    ScheduleKeepsGoroutines(g, Requests(status, roots), trace);
    ToStartForRequests(g, status, roots);
    FinishedStartNothing(g, After(g, Requests(status, roots), trace).threads);
  }
}
