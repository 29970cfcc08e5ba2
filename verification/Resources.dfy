/** CPU and memory of a run: the estimate drawn from past runs (state/pg_queries.go) and the
    defaults, limits and bounds the adapter puts around it (execution/adapter/eks_adapter.go). */
module Resources {
  import opened Commons

  datatype Executable = Executable(cpu: Option<int>, memory: Option<int>, gpu: Option<int>, adaptive: Option<bool>)

  datatype Run = Run(cpu: Option<int>, memory: Option<int>, gpu: Option<int>,
                     cpuLimit: Option<int>, memoryLimit: Option<int>)

  datatype Pair = Pair(cpu: int, mem: int)

  datatype Quantities = Quantities(limit: Pair, request: Pair)

  // ---- The adapter ----

  function Or(first: Option<int>, second: Option<int>, default: int): int {
    if first.Some? && first.value != 0 then first.value
    else if second.Some? && second.value != 0 then second.value
    else default
  }

  /** CPU goes up to an eighth of a very large memory, unless the executable wants a GPU. */
  function Override(exe: Executable, p: Pair): Pair {
    if 36864 <= p.mem < 131072 && (exe.gpu.None? || exe.gpu.value == 0) && p.mem / 8 > p.cpu
    then Pair(p.mem / 8, p.mem) else p
  }

  function Defaults(run: Run, exe: Executable): Pair {
    Override(exe, Pair(Or(run.cpu, exe.cpu, MIN_CPU), Or(run.memory, exe.memory, MIN_MEM)))
  }

  function Clamp(x: int, low: int, high: int): int {
    if x < low then low else if x > high then high else x
  }

  function Bound(p: Pair): Pair { Pair(Clamp(p.cpu, MIN_CPU, MAX_CPU), Clamp(p.mem, MIN_MEM, MAX_MEM)) }

  function Max(x: int, y: int): int { if x > y then x else y }

  predicate WantsGpu(run: Run) { run.gpu.Some? && run.gpu.value > 0 }

  /** The quantities without a GPU: the estimate is only a request, limits never fall below defaults. */
  function Adapted(exe: Executable, run: Run, estimate: Option<Pair>): Quantities {
    var default := Defaults(run, exe);
    var request := if estimate.Some? then estimate.value else default;
    Quantities(Bound(Pair(Max(request.cpu, default.cpu), Max(request.mem, default.mem))), Bound(request))
  }

  /** The estimate counts only if adaptive allocation is on for the engine and the executable. */
  function Used(exe: Executable, estimate: Option<Pair>, araEnabled: bool): Option<Pair> {
    if araEnabled && exe.adaptive == Some(true) then estimate else None
  }

  /** `adaptiveResources`: what the run gets. A GPU run gets the shape of its instance type. */
  method AdaptiveResources(exe: Executable, run: Run, estimate: Option<Pair>, araEnabled: bool)
    returns (q: Quantities)
    ensures q == Final(exe, run, Used(exe, estimate, araEnabled))
    ensures q.request.cpu <= q.limit.cpu && q.request.mem <= q.limit.mem
    ensures !WantsGpu(run) ==> InBounds(q.limit) && InBounds(q.request)
  {
    var limit := Defaults(run, exe);
    var request := Defaults(run, exe);
    if araEnabled && exe.adaptive == Some(true) {
      if estimate.Some? {
        request := estimate.value;
      }
    }
    if request.cpu > limit.cpu {
      limit := limit.(cpu := request.cpu);
    }
    if request.mem > limit.mem {
      limit := limit.(mem := request.mem);
    }
    request := Bound(request);
    limit := Bound(limit);
    if WantsGpu(run) {
      limit := Pair(run.gpu.value * 7500, run.gpu.value * 60000);
      request := Pair(run.gpu.value * 6000, run.gpu.value * 50000);
    }
    q := Quantities(limit, request);
  }

  predicate InBounds(p: Pair) { MIN_CPU <= p.cpu <= MAX_CPU && MIN_MEM <= p.mem <= MAX_MEM }

  function Final(exe: Executable, run: Run, estimate: Option<Pair>): Quantities {
    if WantsGpu(run)
    then Quantities(Pair(run.gpu.value * 7500, run.gpu.value * 60000), Pair(run.gpu.value * 6000, run.gpu.value * 50000))
    else Adapted(exe, run, estimate)
  }

  function Distance(x: int, y: int): nat { if x < y then y - x else x - y }

  /** `p` is at least as close to what was wanted as `other`, in CPU and in memory. */
  predicate NoFurther(wanted: Pair, p: Pair, other: Pair) {
    Distance(p.cpu, wanted.cpu) <= Distance(other.cpu, wanted.cpu) && Distance(p.mem, wanted.mem) <= Distance(other.mem, wanted.mem)
  }

  predicate AtMostPair(p: Pair, q: Pair) { p.cpu <= q.cpu && p.mem <= q.mem }

  /** Without a GPU, the request is the legal pair nearest to the estimate, or else the defaults;
      the limit is the least legal pair that covers both the request and what would have been
      requested without the estimate. */
  lemma NearestRequestLeastLimit(exe: Executable, run: Run, estimate: Option<Pair>, other: Pair)
    requires !WantsGpu(run) && InBounds(other)
    ensures var q, default := Final(exe, run, estimate), Final(exe, run, None).request;
            && NoFurther(if estimate.Some? then estimate.value else Defaults(run, exe), q.request, other)
            && AtMostPair(q.request, q.limit) && AtMostPair(default, q.limit)
            && (AtMostPair(q.request, other) && AtMostPair(default, other) ==> AtMostPair(q.limit, other))
  {}

  // ---- Where the numbers come from ----

  /** The run's memory if it is set and not zero, else the definition's, else 512 MB. */
  lemma DefaultMemory(run: Run, exe: Executable)
    ensures var m := Defaults(run, exe).mem;
            && (run.memory.Some? && run.memory.value != 0 ==> m == run.memory.value)
            && (run.memory in {None, Some(0)} && exe.memory.Some? && exe.memory.value != 0 ==> m == exe.memory.value)
            && (run.memory in {None, Some(0)} && exe.memory in {None, Some(0)} ==> m == 512)
  {}

  /** CPU likewise, with 256 in the end; but for 36864 to 131071 MB and no GPU in the definition at
      least an eighth of the memory. */
  lemma DefaultCpu(run: Run, exe: Executable)
    ensures var p := Defaults(run, exe);
            var asked := if run.cpu.Some? && run.cpu.value != 0 then run.cpu.value
                         else if exe.cpu.Some? && exe.cpu.value != 0 then exe.cpu.value else 256;
            if 36864 <= p.mem <= 131071 && exe.gpu in {None, Some(0)}
            then p.cpu >= asked && 8 * p.cpu > p.mem - 8 && (p.cpu == asked || 8 * p.cpu <= p.mem)
            else p.cpu == asked
  {}

  /** What is legal, and that the result is, unless the run wants a GPU: then it is the share of so
      many GPUs, whatever was asked for. */
  lemma LegalOrGpuShare(exe: Executable, run: Run, estimate: Option<Pair>)
    ensures var q := Final(exe, run, estimate);
            if run.gpu.Some? && run.gpu.value > 0
            then q == Quantities(Pair(7500 * run.gpu.value, 60000 * run.gpu.value), Pair(6000 * run.gpu.value, 50000 * run.gpu.value))
            else && 256 <= q.request.cpu <= q.limit.cpu <= 32000
                 && 512 <= q.request.mem <= q.limit.mem <= 250000
  {}

  /** Without the adaptive flag of the engine and of the executable the estimate does not matter; with
      both, and no GPU, a legal estimate is what is requested. */
  lemma EstimateNeedsBothFlags(exe: Executable, run: Run, first: Option<Pair>, second: Option<Pair>, araEnabled: bool)
    ensures !araEnabled || exe.adaptive != Some(true) ==>
              Final(exe, run, Used(exe, first, araEnabled)) == Final(exe, run, Used(exe, second, araEnabled))
    ensures araEnabled && exe.adaptive == Some(true) && !WantsGpu(run) && first.Some? && InBounds(first.value) ==>
              Final(exe, run, Used(exe, first, araEnabled)).request == first.value
  {}

  // ---- Feeding the result back ----

  /** The adapted run: requests and limits written into it. */
  function FedBack(run: Run, q: Quantities): Run {
    run.(cpu := Some(q.request.cpu), memory := Some(q.request.mem),
         cpuLimit := Some(q.limit.cpu), memoryLimit := Some(q.limit.mem))
  }

  /** Adapting the adapted run again, without an estimate, gives the same four quantities exactly
      when it is a GPU run, or there was no estimate the first time either, or the estimate is, in
      bounds, no less than the defaults and nothing that the override would raise. */
  lemma FeedbackReproducesIff(exe: Executable, run: Run, estimate: Option<Pair>)
    ensures var q := Final(exe, run, estimate);
            Final(exe, FedBack(run, q), None) == q
            <==> || WantsGpu(run) || estimate.None?
                 || (&& AtMostPair(Bound(Defaults(run, exe)), Bound(estimate.value))
                     && Override(exe, Bound(estimate.value)) == Bound(estimate.value))
  {
    var d := Defaults(run, exe);
    assert Override(exe, Bound(d)) == Bound(d);
  }

  /** For example, an estimate of half the memory asked for is taken for the limit the next time. */
  lemma FeedbackCanLowerTheLimit()
    ensures var exe, run := Executable(None, None, None, Some(true)), Run(None, Some(4000), None, None, None);
            var q := Final(exe, run, Some(Pair(256, 2000)));
            q.limit.mem == 4000 && Final(exe, FedBack(run, q), None).limit.mem == 2000
  {}

  /** One adaptation without an estimate is enough: a second one changes nothing, and it never
      takes back anything that was requested. */
  lemma FeedbackSettles(exe: Executable, run: Run, estimate: Option<Pair>)
    ensures var q := Final(exe, run, estimate);
            var again := Final(exe, FedBack(run, q), None);
            && Final(exe, FedBack(FedBack(run, q), again), None) == again
            && q.request.cpu <= again.request.cpu && q.request.mem <= again.request.mem
  {
    var run1 := FedBack(run, Final(exe, run, estimate));
    FeedbackReproducesIff(exe, run1, None);
  }

  /** What a status poll writes into the run: the CPU request, but the memory limit as memory. */
  function Polled(run: Run, q: Quantities): Run {
    run.(cpu := Some(q.request.cpu), memory := Some(q.limit.mem), cpuLimit := Some(q.limit.cpu))
  }

  /** So a polled run that is submitted again requests the memory it was limited to before. */
  lemma PollingRaisesRequestToLimit(exe: Executable, run: Run, estimate: Option<Pair>)
    requires !WantsGpu(run)
    ensures var q := Final(exe, run, estimate);
            var again := Final(exe, Polled(run, q), None);
            && again.request.mem == q.limit.mem == again.limit.mem && again.request.cpu >= q.request.cpu
            && (q.limit.mem < 36864 || q.limit.mem > 131071 || exe.gpu !in {None, Some(0)} ==> again.request.cpu == q.request.cpu)
  {}

  // ---- The estimate ----

  /** A past run that the query selects: it exited with 0 or 137 and has both maxima. */
  datatype Past = Past(killed: bool, memory: Option<int>, maxMemory: int, maxCpu: int)

  const SAMPLE_LIMIT := 30
  const MAX_INT := 0x7fff_ffff

  /** Twice the memory of a run killed for memory, what it used otherwise; NULLs are dropped. */
  function MemoryValues(sample: seq<Past>): seq<int> {
    if sample == [] then []
    else
      var row := sample[|sample| - 1];
      MemoryValues(sample[..|sample| - 1])
      + if !row.killed then [row.maxMemory] else if row.memory.Some? then [row.memory.value * 2] else []
  }

  function CpuValues(sample: seq<Past>): seq<int> { seq(|sample|, i requires 0 <= i < |sample| => sample[i].maxCpu) }

  function AtMost(values: seq<int>, v: int): nat {
    if values == [] then 0
    else AtMost(values[..|values| - 1], v) + if values[|values| - 1] <= v then 1 else 0
  }

  /** `percentile_disc(percent / 100)`: the least value that so many values do not exceed. */
  ghost predicate IsPercentile(values: seq<int>, percent: nat, v: int) {
    && v in values
    && 100 * AtMost(values, v) >= percent * |values|
    && forall u | u in values && u < v :: 100 * AtMost(values, u) < percent * |values|
  }

  ghost predicate IsMaximum(values: seq<int>, v: int) {
    v in values && forall u | u in values :: u <= v
  }

  lemma {:induction false} AtMostCounts(values: seq<int>, v: int)
    ensures AtMost(values, v) <= |values|
    ensures AtMost(values, v) == |values| <==> forall u | u in values :: u <= v
  {
    if values != [] {
      var n := |values| - 1;
      assert values == values[..n] + [values[n]];
      AtMostCounts(values[..n], v);
      assert values[n] in values && forall u | u in values[..n] :: u in values;
      if AtMost(values, v) == |values| {
        forall u | u in values ensures u <= v { assert u == values[n] || u in values[..n]; }
      }
    }
  }

  /** Of fewer than a hundred values, percentile 99 is the maximum. */
  lemma NinetyNinthOfFewIsMaximum(values: seq<int>, v: int)
    requires 0 < |values| < 100
    ensures IsPercentile(values, 99, v) <==> IsMaximum(values, v)
  {
    var top := MaximumOf(values);
    AtMostCounts(values, top);
    AtMostCounts(values, v);
    if IsMaximum(values, v) {
      forall u | u in values && u < v ensures 100 * AtMost(values, u) < 99 * |values| {
        AtMostCounts(values, u);
      }
    }
  }

  /** Of a hundred or more it need not be: one large value among small ones is overlooked. */
  lemma NinetyNinthOfManyMayNotBe(n: nat)
    requires n >= 100
    ensures exists values: seq<int> :: |values| == n && IsPercentile(values, 99, 0) && !IsMaximum(values, 0)
  {
    var zeros := seq(n - 1, i => 0);
    var values := zeros + [1];
    AtMostCounts(zeros, 0);
    assert values[..n - 1] == zeros && values[0] == 0 && values[n - 1] == 1;
    assert AtMost(values, 0) == n - 1 && values[n - 1] in values;
    assert IsPercentile(values, 99, 0) && !IsMaximum(values, 0);
  }

  function MaximumOf(values: seq<int>): (v: int)
    requires values != []
    ensures IsMaximum(values, v)
  {
    var n := |values| - 1;
    assert values == values[..n] + [values[n]];
    if n == 0 then values[0] else Max(MaximumOf(values[..n]), values[n])
  }

  /** A number of quarters cast to int: rounded to the nearest, halves away from zero. */
  function RoundQuarters(x: int): int {
    if x >= 0 then (x + 2) / 4 else -((2 - x) / 4)
  }

  /** A doubled memory or a scaled percentile that does not fit an int makes the query fail. */
  predicate Fits(sample: seq<Past>, mem: int, cpu: int) {
    && (forall row | row in sample && row.killed && row.memory.Some? :: -MAX_INT - 1 <= row.memory.value * 2 <= MAX_INT)
    && -MAX_INT - 1 <= RoundQuarters(7 * mem) <= MAX_INT
    && -MAX_INT - 1 <= RoundQuarters(5 * cpu) <= MAX_INT
  }

  /** `EstimateRunResources` over the rows that the query happened to sample: 1.75 times percentile
      99 of the memory values and 1.25 times that of the CPU values; no estimate if it fails. */
  ghost predicate Estimates(sample: seq<Past>, estimate: Option<Pair>) {
    if MemoryValues(sample) == [] then estimate == None
    else exists mem, cpu ::
      && IsPercentile(MemoryValues(sample), 99, mem) && IsPercentile(CpuValues(sample), 99, cpu)
      && estimate == if Fits(sample, mem, cpu) then Some(Pair(RoundQuarters(5 * cpu), RoundQuarters(7 * mem))) else None
  }

  lemma {:induction false} MemoryValuesAreFew(sample: seq<Past>)
    ensures |MemoryValues(sample)| <= |sample|
  {
    if sample != [] { MemoryValuesAreFew(sample[..|sample| - 1]); }
  }

  lemma {:induction false} KillIsAValue(sample: seq<Past>, i: nat, m: int)
    requires i < |sample| && sample[i].killed && sample[i].memory == Some(m)
    ensures 2 * m in MemoryValues(sample)
  {
    var n := |sample| - 1;
    if i < n { KillIsAValue(sample[..n], i, m); }
  }

  /** A killed run whose doubled memory does not fit 32 bits. */
  predicate Overflows(past: Past) {
    past.killed && past.memory.Some? && (2 * past.memory.value > 2147483647 || 2 * past.memory.value < -2147483648)
  }

  /** A quarter of `x`, rounded, fits 32 bits. */
  predicate QuarterFits(x: int) { -4 * 2147483648 - 2 < x < 4 * 2147483647 + 2 }

  lemma RoundedFits(x: int)
    ensures QuarterFits(x) <==> -MAX_INT - 1 <= RoundQuarters(x) <= MAX_INT
  {}

  lemma FitsIff(sample: seq<Past>, mem: int, cpu: int)
    ensures Fits(sample, mem, cpu) <==>
              (forall past | past in sample :: !Overflows(past)) && QuarterFits(7 * mem) && QuarterFits(5 * cpu)
  {
    RoundedFits(7 * mem);
    RoundedFits(5 * cpu);
  }

  /** There is no estimate exactly if no sampled run speaks for a memory, or a doubled memory or a
      scaled maximum, rounded, does not fit 32 bits. */
  lemma NoEstimateIff(sample: seq<Past>, estimate: Option<Pair>, mem: int, cpu: int)
    requires 0 < |sample| <= 30 && Estimates(sample, estimate)
    requires IsMaximum(CpuValues(sample), cpu) && (MemoryValues(sample) != [] ==> IsMaximum(MemoryValues(sample), mem))
    ensures estimate == None <==>
              || (forall past, m | past in sample :: !Demands(past, m))
              || (exists past | past in sample :: Overflows(past)) || !QuarterFits(7 * mem) || !QuarterFits(5 * cpu)
  {
    MemoryValuesAreFew(sample);
    NoValueIff(sample);
    if MemoryValues(sample) != [] {
      var p, q :|
        && IsPercentile(MemoryValues(sample), 99, p) && IsPercentile(CpuValues(sample), 99, q)
        && estimate == if Fits(sample, p, q) then Some(Pair(RoundQuarters(5 * q), RoundQuarters(7 * p))) else None;
      NinetyNinthOfFewIsMaximum(MemoryValues(sample), p);
      NinetyNinthOfFewIsMaximum(CpuValues(sample), q);
      assert p == mem && q == cpu;
      FitsIff(sample, mem, cpu);
    }
  }

  lemma NoValueIff(sample: seq<Past>)
    ensures MemoryValues(sample) == [] <==> forall past, m | past in sample :: !Demands(past, m)
  {
    if MemoryValues(sample) != [] {
      var i := ValueComesFrom(sample, MemoryValues(sample)[0]);
    }
    if past, m :| past in sample && Demands(past, m) {
      var i: nat :| i < |sample| && sample[i] == past;
      DemandIsAValue(sample, i, m);
    }
  }

  /** `x / 4` and `y` differ by no more than a rounding to the nearest integer. */
  predicate RoundsTo(x: int, y: int) { -2 <= 4 * y - x <= 2 }

  /** What one past run speaks for: twice its memory if it was killed, its largest use otherwise. */
  predicate Demands(past: Past, memory: int) {
    if past.killed then past.memory.Some? && memory == 2 * past.memory.value else memory == past.maxMemory
  }

  /** The estimate in full: 1.75 times the largest memory that a sampled run speaks for, and 1.25
      times the largest CPU use, each rounded. */
  lemma EstimateIsOfMaxima(sample: seq<Past>, estimate: Option<Pair>) returns (i: nat, j: nat, memory: int)
    requires |sample| <= 30 && Estimates(sample, estimate) && estimate.Some?
    ensures i < |sample| && Demands(sample[i], memory) && RoundsTo(7 * memory, estimate.value.mem)
    ensures forall k, m | 0 <= k < |sample| && Demands(sample[k], m) :: m <= memory
    ensures j < |sample| && RoundsTo(5 * sample[j].maxCpu, estimate.value.cpu)
    ensures forall k | 0 <= k < |sample| :: sample[k].maxCpu <= sample[j].maxCpu
  {
    MemoryValuesAreFew(sample);
    var mem, cpu :|
      && IsPercentile(MemoryValues(sample), 99, mem) && IsPercentile(CpuValues(sample), 99, cpu)
      && estimate == Some(Pair(RoundQuarters(5 * cpu), RoundQuarters(7 * mem)));
    NinetyNinthOfFewIsMaximum(MemoryValues(sample), mem);
    NinetyNinthOfFewIsMaximum(CpuValues(sample), cpu);
    memory := mem;
    i := ValueComesFrom(sample, mem);
    forall k, m | 0 <= k < |sample| && Demands(sample[k], m) ensures m <= memory {
      DemandIsAValue(sample, k, m);
    }
    j :| 0 <= j < |sample| && CpuValues(sample)[j] == cpu;
    forall k | 0 <= k < |sample| ensures sample[k].maxCpu <= sample[j].maxCpu {
      assert CpuValues(sample)[k] == sample[k].maxCpu && CpuValues(sample)[k] in CpuValues(sample);
    }
  }

  lemma {:induction false} ValueComesFrom(sample: seq<Past>, v: int) returns (i: nat)
    requires v in MemoryValues(sample)
    ensures i < |sample| && Demands(sample[i], v)
  {
    var n := |sample| - 1;
    if Demands(sample[n], v) {
      i := n;
    } else {
      i := ValueComesFrom(sample[..n], v);
    }
  }

  lemma {:induction false} DemandIsAValue(sample: seq<Past>, i: nat, m: int)
    requires i < |sample| && Demands(sample[i], m)
    ensures m in MemoryValues(sample)
  {
    if i < |sample| - 1 { DemandIsAValue(sample[..|sample| - 1], i, m); }
  }

  /** The memory that an out-of-memory kill at `m` leads to at least, in halves. */
  function Floor(m: int): int { if 7 * m < 2 * MAX_MEM then 7 * m else 2 * MAX_MEM }

  lemma ScaledMemory(mem: int, m: int)
    requires mem >= 2 * m
    ensures 2 * Clamp(RoundQuarters(7 * mem), MIN_MEM, MAX_MEM) >= Floor(m)
  {}

  lemma EstimatedMemory(sample: seq<Past>, estimate: Option<Pair>, v: int)
    requires |sample| <= SAMPLE_LIMIT && Estimates(sample, estimate) && estimate.Some? && v in MemoryValues(sample)
    ensures exists mem :: mem >= v && estimate.value.mem == RoundQuarters(7 * mem)
  {
    MemoryValuesAreFew(sample);
    var mem, cpu :|
      && IsPercentile(MemoryValues(sample), 99, mem) && IsPercentile(CpuValues(sample), 99, cpu)
      && estimate == if Fits(sample, mem, cpu) then Some(Pair(RoundQuarters(5 * cpu), RoundQuarters(7 * mem))) else None;
    NinetyNinthOfFewIsMaximum(MemoryValues(sample), mem);
  }

  /** A sampled out-of-memory kill at memory `m` gives the next adaptive request at least
      min(250000, 3.5 m), whatever the run and the executable ask for. */
  lemma KillEscalates(exe: Executable, run: Run, sample: seq<Past>, estimate: Option<Pair>, i: nat, m: int)
    requires !WantsGpu(run) && |sample| <= SAMPLE_LIMIT && Estimates(sample, estimate) && estimate.Some?
    requires i < |sample| && sample[i].killed && sample[i].memory == Some(m)
    ensures 2 * Final(exe, run, estimate).request.mem >= Floor(m)
  {
    KillIsAValue(sample, i, m);
    EstimatedMemory(sample, estimate, 2 * m);
    var mem :| mem >= 2 * m && estimate.value.mem == RoundQuarters(7 * mem);
    ScaledMemory(mem, m);
  }

  /** One run killed for memory, and the sample and estimate from which the next one was sized. */
  datatype Attempt = Attempt(run: Run, killedAt: int, sample: seq<Past>, estimate: Option<Pair>)

  /** The kill of one run is in the sample for the next one, which got what the adapter makes of
      the estimate and was killed with at least that. */
  ghost predicate Follows(exe: Executable, now: Attempt, next: Attempt) {
    && !WantsGpu(next.run) && |now.sample| <= SAMPLE_LIMIT
    && Estimates(now.sample, now.estimate) && now.estimate.Some?
    && (exists k :: 0 <= k < |now.sample| && now.sample[k].killed && now.sample[k].memory == Some(now.killedAt))
    && next.killedAt >= Final(exe, next.run, now.estimate).request.mem
  }

  lemma FollowingRequest(exe: Executable, now: Attempt, next: Attempt)
    requires Follows(exe, now, next)
    ensures 2 * next.killedAt >= 2 * Final(exe, next.run, now.estimate).request.mem >= Floor(now.killedAt)
  {
    var k :| 0 <= k < |now.sample| && now.sample[k].killed && now.sample[k].memory == Some(now.killedAt);
    KillEscalates(exe, next.run, now.sample, now.estimate, k, now.killedAt);
  }

  /** From any legal memory at most five kills in a row bring the request to the cap. */
  lemma FiveKillsReachTheCap(exe: Executable, attempts: seq<Attempt>)
    requires |attempts| == 6 && attempts[0].killedAt >= MIN_MEM
    requires forall i | 0 <= i < 5 :: Follows(exe, attempts[i], attempts[i + 1])
    ensures Final(exe, attempts[5].run, attempts[4].estimate).request.mem == MAX_MEM
  {
    FollowingRequest(exe, attempts[0], attempts[1]);
    FollowingRequest(exe, attempts[1], attempts[2]);
    FollowingRequest(exe, attempts[2], attempts[3]);
    FollowingRequest(exe, attempts[3], attempts[4]);
    FollowingRequest(exe, attempts[4], attempts[5]);
  }
}
