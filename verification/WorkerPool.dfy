/** Keeping as many workers of each type as the worker table asks for (worker/worker_manager.go). */
module WorkerPool {

  /** A row of the worker table. The count is whatever was written there. */
  datatype Wanted = Wanted(kind: string, count: int)

  datatype Outcome = Ready | Failed | Panicked

  type Pool = map<string, seq<nat>>

  predicate Distinct(list: seq<Wanted>) {
    forall i, j | 0 <= i < j < |list| :: list[i].kind != list[j].kind
  }

  predicate Lists(list: seq<Wanted>, kind: string) {
    exists i | 0 <= i < |list| :: list[i].kind == kind
  }

  lemma ListsOneMore(list: seq<Wanted>, n: nat)
    requires n < |list|
    ensures forall k :: Lists(list[..n + 1], k) <==> Lists(list[..n], k) || k == list[n].kind
  {
    assert list[..n + 1] == list[..n] + [list[n]];
    forall k ensures Lists(list[..n + 1], k) <==> Lists(list[..n], k) || k == list[n].kind {
      assert forall i | 0 <= i < n :: list[..n + 1][i] == list[..n][i];
      assert list[..n + 1][n] == list[n];
    }
  }

  /** The row can be met from nothing. */
  predicate Possible(w: Wanted, makes: set<string>) {
    w.count == 0 || (w.count > 0 && w.kind in makes)
  }

  /** What one row makes of the workers of its type: the oldest stay; new ones come after them,
      unless none can be constructed. */
  predicate Reached(w: Wanted, makes: bool, before: seq<nat>, after: seq<nat>) {
    if w.count <= |before| then after == before[..if w.count < 0 then 0 else w.count]
    else if makes then before <= after && |after| == w.count
    else after == before
  }

  /** In terms of numbers: all or the oldest of the workers are there, or all with new ones after them;
      as many as wanted and none for a negative count, but no more than before if none can be made. */
  lemma ReachedIff(w: Wanted, makes: bool, before: seq<nat>, after: seq<nat>)
    ensures Reached(w, makes, before, after) <==>
              && (after <= before || before <= after)
              && |after| == if w.count < 0 then 0 else if w.count > |before| && !makes then |before| else w.count
  {}

  /** The row asks for a worker of a type without a slot, and one is constructed. */
  predicate Stray(w: Wanted, kinds: set<string>, makes: set<string>) {
    w.kind !in kinds && w.kind in makes && w.count > 0
  }

  function Strays(list: seq<Wanted>, kinds: set<string>, makes: set<string>): nat {
    if list == [] then 0
    else Strays(list[..|list| - 1], kinds, makes) + if Stray(list[|list| - 1], kinds, makes) then 1 else 0
  }

  lemma {:induction false} NoStrays(list: seq<Wanted>, kinds: set<string>, makes: set<string>)
    ensures Strays(list, kinds, makes) == 0 <==> forall i | 0 <= i < |list| :: !Stray(list[i], kinds, makes)
  {
    if list != [] {
      NoStrays(list[..|list| - 1], kinds, makes);
    }
  }

  type Slots = map<nat, (string, nat)>

  /** The pool and the slots say the same: so no worker has two slots. */
  ghost predicate Tracks(workers: Pool, slot: Slots) {
    && (forall id | id in slot ::
          slot[id].0 in workers && slot[id].1 < |workers[slot[id].0]| && workers[slot[id].0][slot[id].1] == id)
    && forall kind, i | kind in workers && 0 <= i < |workers[kind]| ::
         workers[kind][i] in slot && slot[workers[kind][i]] == (kind, i)
  }

  lemma AddTracks(workers: Pool, slot: Slots, kind: string, id: nat)
    requires Tracks(workers, slot) && kind in workers && id !in slot
    ensures Tracks(workers[kind := workers[kind] + [id]], slot[id := (kind, |workers[kind]|)])
  {}

  lemma RemoveTracks(workers: Pool, slot: Slots, kind: string)
    requires Tracks(workers, slot) && kind in workers && workers[kind] != []
    ensures var n := |workers[kind]| - 1;
            workers[kind][n] in slot && Tracks(workers[kind := workers[kind][..n]], slot - {workers[kind][n]})
  {}

  lemma ClearTracks(workers: Pool, slot: Slots, kind: string)
    requires Tracks(workers, slot)
    ensures Tracks(workers[kind := []], if kind in workers then slot - set id | id in workers[kind] else slot)
  {}

  /** The first `n` rows have been dealt with. */
  ghost predicate Met(list: seq<Wanted>, n: nat, makes: set<string>, before: Pool, after: Pool) {
    && before.Keys == after.Keys && n <= |list|
    && (forall k | k in after && !Lists(list[..n], k) :: after[k] == before[k])
    && (Distinct(list) ==> forall i | 0 <= i < n && list[i].kind in after ::
          Reached(list[i], list[i].kind in makes, before[list[i].kind], after[list[i].kind]))
  }

  lemma MetOneMore(list: seq<Wanted>, n: nat, makes: set<string>, before: Pool, now: Pool, after: Pool)
    requires Met(list, n, makes, before, now) && n < |list| && now.Keys == after.Keys
    requires forall k | k in now && k != list[n].kind :: after[k] == now[k]
    requires list[n].kind in now ==> Reached(list[n], list[n].kind in makes, now[list[n].kind], after[list[n].kind])
    ensures Met(list, n + 1, makes, before, after)
  {
    ListsOneMore(list, n);
    assert Distinct(list) ==> !Lists(list[..n], list[n].kind);
  }

  /** The first `n` rows have been started. */
  ghost predicate Begun(list: seq<Wanted>, n: nat, workers: Pool, lost: set<nat>) {
    && n <= |list|
    && (forall k :: k in workers <==> Lists(list[..n], k))
    && (Distinct(list) ==>
          lost == {} && forall i | 0 <= i < n :: list[i].kind in workers && |workers[list[i].kind]| == list[i].count)
  }

  lemma BegunOneMore(list: seq<Wanted>, n: nat, before: Pool, lostBefore: set<nat>, after: Pool, lost: set<nat>)
    requires n < |list| && Begun(list, n, before, lostBefore)
    requires after.Keys == before.Keys + {list[n].kind} && |after[list[n].kind]| == list[n].count
    requires forall k | k in before && k != list[n].kind :: after[k] == before[k]
    requires list[n].kind !in before ==> lost == lostBefore
    ensures Begun(list, n + 1, after, lost)
  {
    ListsOneMore(list, n);
    assert Distinct(list) ==> !Lists(list[..n], list[n].kind);
  }

  class Manager {
    var workers: Pool
    /** Workers are numbered as they are started. */
    var next: nat
    /** Started and not killed. */
    var running: set<nat>
    /** Running, but in no slot: nothing will ever kill them. */
    ghost var lost: set<nat>
    /** The slot of every other running worker. */
    ghost var slot: Slots

    ghost predicate Valid()
      reads this
    {
      && (forall id | id in running :: id < next)
      && lost <= running && slot.Keys == running - lost
      && Tracks(workers, slot)
    }

    constructor ()
      ensures Valid() && workers == map[] && running == {} && lost == {}
    {
      workers, next, running, lost, slot := map[], 0, {}, {}, map[];
    }

    /** The worker runs before it turns out that there is no slot for it. */
    method AddWorker(kind: string, makes: bool) returns (ok: bool)
      requires Valid()
      modifies this
      ensures Valid()
      ensures ok <==> makes && kind in old(workers)
      ensures next == old(next) + if makes then 1 else 0
      ensures running == old(running) + if makes then {old(next)} else {}
      ensures workers == if ok then old(workers)[kind := old(workers)[kind] + [old(next)]] else old(workers)
      ensures lost == old(lost) + if makes && !ok then {old(next)} else {}
    {
      if !makes {
        return false;
      }
      var id := next;
      running, next := running + {id}, next + 1;
      ok := kind in workers;
      if ok {
        AddTracks(workers, slot, kind, id);
        slot := slot[id := (kind, |workers[kind]|)];
        workers := workers[kind := workers[kind] + [id]];
      } else {
        lost := lost + {id};
      }
    }

    method RemoveWorker(kind: string) returns (ok: bool)
      requires Valid()
      modifies this
      ensures Valid() && next == old(next) && lost == old(lost)
      ensures ok <==> kind in old(workers)
      ensures if ok && old(workers)[kind] != []
        then var was := old(workers)[kind];
             workers == old(workers)[kind := was[..|was| - 1]] && running == old(running) - {was[|was| - 1]}
        else workers == old(workers) && running == old(running)
    {
      ok := kind in workers;
      if ok && workers[kind] != [] {
        var n := |workers[kind]| - 1;
        var id := workers[kind][n];
        RemoveTracks(workers, slot, kind);
        running := running - {id};
        slot := slot - {id};
        workers := workers[kind := workers[kind][..n]];
      }
    }

    method UpdateWorkerCount(w: Wanted, makes: bool)
      requires Valid()
      modifies this
      ensures Valid() && next >= old(next) && workers.Keys == old(workers).Keys
      ensures forall k | k in workers && k != w.kind :: workers[k] == old(workers)[k]
      ensures w.kind in workers ==> Reached(w, makes, old(workers)[w.kind], workers[w.kind])
      ensures old(lost) <= lost
      ensures |lost| == |old(lost)| + if w.kind !in workers && makes && w.count > 0 then 1 else 0
    {
      var current := if w.kind in workers then |workers[w.kind]| else 0;
      if current > w.count {
        ScaleDown(w, current);
      } else {
        ScaleUp(w, current, makes);
      }
    }

    method ScaleDown(w: Wanted, current: nat)
      requires Valid() && w.count < current == if w.kind in workers then |workers[w.kind]| else 0
      modifies this
      ensures Valid() && next == old(next) && lost == old(lost)
      ensures workers.Keys == old(workers).Keys
      ensures forall k | k in workers && k != w.kind :: workers[k] == old(workers)[k]
      ensures w.kind in workers ==> workers[w.kind] == old(workers)[w.kind][..if w.count < 0 then 0 else w.count]
    {
      for i := w.count to current
        invariant Valid() && next == old(next) && lost == old(lost) && workers.Keys == old(workers).Keys
        invariant forall k | k in workers && k != w.kind :: workers[k] == old(workers)[k]
        invariant w.kind in workers ==>
                  var left := current - (i - w.count);
                  workers[w.kind] == old(workers)[w.kind][..if left < 0 then 0 else left]
      {
        var ok := RemoveWorker(w.kind);
        if !ok { return; }
      }
    }

    method ScaleUp(w: Wanted, current: nat, makes: bool)
      requires Valid() && current <= w.count && current == if w.kind in workers then |workers[w.kind]| else 0
      modifies this
      ensures Valid() && next >= old(next) && workers.Keys == old(workers).Keys
      ensures forall k | k in workers && k != w.kind :: workers[k] == old(workers)[k]
      ensures w.kind in workers ==> Reached(w, makes, old(workers)[w.kind], workers[w.kind])
      ensures lost == old(lost) + if w.kind !in workers && makes && w.count > 0 then {old(next)} else {}
    {
      for i := current to w.count
        invariant Valid() && next >= old(next) && lost == old(lost) && workers.Keys == old(workers).Keys
        invariant forall k | k in workers && k != w.kind :: workers[k] == old(workers)[k]
        invariant w.kind in workers ==> old(workers)[w.kind] <= workers[w.kind] && |workers[w.kind]| == i
        invariant i > current ==> makes && w.kind in workers
        invariant i == current ==> workers == old(workers) && next == old(next)
      {
        var ok := AddWorker(w.kind, makes);
        if !ok { return; }
      }
    }

    /** `runOnce`: one pass over the table. */
    method RunOnce(list: seq<Wanted>, makes: set<string>)
      requires Valid()
      modifies this
      ensures Valid() && workers.Keys == old(workers).Keys
      ensures forall k | k in workers && !Lists(list, k) :: workers[k] == old(workers)[k]
      ensures Distinct(list) ==> forall i | 0 <= i < |list| && list[i].kind in workers ::
                Reached(list[i], list[i].kind in makes, old(workers)[list[i].kind], workers[list[i].kind])
      ensures old(lost) <= lost && |lost| == |old(lost)| + Strays(list, old(workers).Keys, makes)
    {
      for n := 0 to |list|
        invariant Valid() && Met(list, n, makes, old(workers), workers)
        invariant old(lost) <= lost && |lost| == |old(lost)| + Strays(list[..n], old(workers).Keys, makes)
      {
        ghost var was := workers;
        var current := if list[n].kind in workers then |workers[list[n].kind]| else 0;
        assert list[..n + 1][..n] == list[..n] && list[..n + 1][n] == list[n];
        if current != list[n].count {
          UpdateWorkerCount(list[n], list[n].kind in makes);
        }
        MetOneMore(list, n, makes, old(workers), was, workers);
      }
      assert list[..|list|] == list;
    }

    /** `InitializeWorkers`, on a manager that has no workers yet. A row that comes twice forgets
        the workers of the first; a negative count is an invalid slice size. */
    method InitializeWorkers(list: seq<Wanted>, makes: set<string>) returns (outcome: Outcome)
      requires Valid() && workers == map[] && lost == {}
      modifies this
      ensures Valid()
      ensures outcome == Ready <==> forall i | 0 <= i < |list| :: Possible(list[i], makes)
      ensures outcome == Ready ==> forall k :: k in workers <==> Lists(list, k)
      ensures outcome == Ready && Distinct(list) ==>
                lost == {} && MeetsAll(list)
    {
      for n := 0 to |list|
        invariant Valid() && Begun(list, n, workers, lost)
        invariant forall i | 0 <= i < n :: Possible(list[i], makes)
      {
        if list[n].count < 0 {
          return Panicked;
        }
        ghost var before, lostBefore := workers, lost;
        var ok := StartWorkers(list[n], list[n].kind in makes);
        if !ok {
          return Failed;
        }
        BegunOneMore(list, n, before, lostBefore, workers, lost);
      }
      assert list[..|list|] == list;
      return Ready;
    }

    method MakeSlots(kind: string)
      requires Valid()
      modifies this
      ensures Valid() && next == old(next) && running == old(running)
      ensures workers == old(workers)[kind := []]
      ensures kind !in old(workers) ==> lost == old(lost)
    {
      ghost var orphans := if kind in workers then set id | id in workers[kind] else {};
      ClearTracks(workers, slot, kind);
      assert orphans <= slot.Keys by {
        if kind in workers { assert forall id | id in workers[kind] :: id in slot; }
      }
      lost, slot := lost + orphans, slot - orphans;
      workers := workers[kind := []];
    }

    /** One row at start-up. Slots already there are replaced by new ones. */
    method StartWorkers(w: Wanted, makes: bool) returns (ok: bool)
      requires Valid() && w.count >= 0
      modifies this
      ensures Valid() && workers.Keys == old(workers).Keys + {w.kind}
      ensures ok <==> Possible(w, if makes then {w.kind} else {})
      ensures ok ==> |workers[w.kind]| == w.count
      ensures forall k | k in old(workers) && k != w.kind :: workers[k] == old(workers)[k]
      ensures w.kind !in old(workers) ==> lost == old(lost)
    {
      MakeSlots(w.kind);
      for i := 0 to w.count
        invariant Valid() && workers.Keys == old(workers).Keys + {w.kind}
        invariant |workers[w.kind]| == i && (i > 0 ==> makes)
        invariant forall k | k in old(workers) && k != w.kind :: workers[k] == old(workers)[k]
        invariant w.kind !in old(workers) ==> lost == old(lost)
      {
        ok := AddWorker(w.kind, makes);
        if !ok {
          return;
        }
      }
      return true;
    }

    ghost predicate Meets(w: Wanted)
      reads this
    {
      w.kind in workers && |workers[w.kind]| == w.count
    }

    ghost predicate MeetsAll(list: seq<Wanted>)
      reads this
    {
      forall i | 0 <= i < |list| :: Meets(list[i])
    }

    /** Whatever is running is in a slot, and the other way round. */
    ghost predicate AllTracked()
      reads this
    {
      forall id :: id in running <==> exists k, i :: k in workers && 0 <= i < |workers[k]| && workers[k][i] == id
    }

    lemma TrackedIffNoneLost()
      requires Valid()
      ensures AllTracked() <==> lost == {}
    {
      if lost == {} {
        forall id | id in running
          ensures exists k, i :: k in workers && 0 <= i < |workers[k]| && workers[k][i] == id
        {
          assert workers[slot[id].0][slot[id].1] == id;
        }
      } else {
        var id :| id in lost;
        assert forall k, i | k in workers && 0 <= i < |workers[k]| :: workers[k][i] != id;
      }
    }

    /** From start-up on, over any passes in which only types known at start-up are listed and
        constructors succeed: what runs is what is tracked, and the last pass holds. */
    method Run(first: seq<Wanted>, passes: seq<seq<Wanted>>, makes: set<string>) returns (outcome: Outcome)
      requires Valid() && workers == map[] && running == {} && lost == {}
      requires Distinct(first)
      requires forall p | 0 <= p < |passes| :: Known(passes[p], first, makes)
      modifies this
      ensures Valid()
      ensures outcome == Ready ==> AllTracked() && forall k :: k in workers <==> Lists(first, k)
      ensures outcome == Ready && passes != [] ==>
                MeetsAll(passes[|passes| - 1])
    {
      outcome := InitializeWorkers(first, makes);
      if outcome != Ready {
        return;
      }
      for p := 0 to |passes|
        invariant Valid() && lost == {}
        invariant forall k :: k in workers <==> Lists(first, k)
        invariant p > 0 ==> MeetsAll(passes[p - 1])
      {
        NoStrays(passes[p], workers.Keys, makes);
        assert Known(passes[p], first, makes);
        RunOnce(passes[p], makes);
      }
      TrackedIffNoneLost();
    }
  }

  predicate Known(list: seq<Wanted>, first: seq<Wanted>, makes: set<string>) {
    Distinct(list) && forall i | 0 <= i < |list| ::
      Lists(first, list[i].kind) && list[i].kind in makes && list[i].count >= 0
  }
}
