/** CloudTrail records kept with each run (worker/cloudtrail_worker.go). */
module CloudTrail {

  datatype Record = Record(arn: string, source: string, name: string)

  /** `Record.String`, the key records are told apart by. */
  function Key(r: Record): string { r.source + "-" + r.name }

  /** What `Record.Equal` compares. */
  function Action(r: Record): (string, string) { (r.source, r.name) }

  // ---- Keeping the first record of each key ----

  predicate Seen<K(==)>(s: seq<Record>, key: Record -> K, k: K) {
    exists i | 0 <= i < |s| :: key(s[i]) == k
  }

  /** The records whose key did not come before, in order. */
  function Firsts<K(==)>(s: seq<Record>, key: Record -> K): (firsts: seq<Record>)
    ensures |firsts| <= |s|
    ensures s != [] ==> firsts != []
  {
    if s == [] then []
    else
      var init, last := s[..|s| - 1], s[|s| - 1];
      if Seen(init, key, key(last)) then Firsts(init, key) else Firsts(init, key) + [last]
  }

  lemma FirstsOfOneMore<K>(init: seq<Record>, last: Record, key: Record -> K)
    ensures Firsts(init + [last], key) ==
            if Seen(init, key, key(last)) then Firsts(init, key) else Firsts(init, key) + [last]
  {
    assert (init + [last])[..|init|] == init;
  }

  lemma SeenInOneMore<K>(init: seq<Record>, last: Record, key: Record -> K, k: K)
    ensures Seen(init + [last], key, k) <==> Seen(init, key, k) || key(last) == k
  {
    var s := init + [last];
    assert s[|init|] == last;
    assert forall i | 0 <= i < |init| :: s[i] == init[i];
  }

  /** The kept records show the same keys. */
  lemma {:induction false} KeysStay<K>(s: seq<Record>, key: Record -> K, k: K)
    ensures Seen(Firsts(s, key), key, k) <==> Seen(s, key, k)
  {
    if s != [] {
      var init, last := s[..|s| - 1], s[|s| - 1];
      KeysStay(init, key, k);
      assert s == init + [last];
      SeenInOneMore(init, last, key, k);
      SeenInOneMore(Firsts(init, key), last, key, k);
    }
  }

  /** No key is kept twice. */
  lemma {:induction false} KeysAreDistinct<K>(s: seq<Record>, key: Record -> K)
    ensures forall i, j | 0 <= i < j < |Firsts(s, key)| :: key(Firsts(s, key)[i]) != key(Firsts(s, key)[j])
  {
    if s != [] {
      var init, last := s[..|s| - 1], s[|s| - 1];
      KeysAreDistinct(init, key);
      KeysStay(init, key, key(last));
    }
  }

  /** Each key is kept by the record that brought it first. */
  lemma {:induction false} FirstComesFirst<K>(s: seq<Record>, key: Record -> K, r: Record) returns (i: nat)
    requires r in Firsts(s, key)
    ensures i < |s| && s[i] == r && !Seen(s[..i], key, key(r))
  {
    var init := s[..|s| - 1];
    if r in Firsts(init, key) {
      i := FirstComesFirst(init, key, r);
      assert s[..i] == init[..i];
    } else {
      i := |init|;
    }
  }

  /** Keeping firsts as records arrive is the same as keeping them at the end. */
  lemma {:induction false} FirstsOfAppended<K>(s: seq<Record>, t: seq<Record>, key: Record -> K)
    ensures Firsts(Firsts(s, key) + t, key) == Firsts(s + t, key)
    decreases |t|
  {
    if t == [] {
      assert s + t == s && Firsts(s, key) + t == Firsts(s, key);
      FirstsOfFirsts(s, key);
    } else {
      var init, last := t[..|t| - 1], t[|t| - 1];
      FirstsOfAppended(s, init, key);
      assert s + t == s + init + [last] && Firsts(s, key) + t == Firsts(s, key) + init + [last];
      FirstsOfOneMore(s + init, last, key);
      FirstsOfOneMore(Firsts(s, key) + init, last, key);
      KeysStay(s + init, key, key(last));
      KeysStay(Firsts(s, key) + init, key, key(last));
    }
  }

  lemma {:induction false} FirstsOfFirsts<K>(s: seq<Record>, key: Record -> K)
    ensures Firsts(Firsts(s, key), key) == Firsts(s, key)
  {
    if s != [] {
      var init, last := s[..|s| - 1], s[|s| - 1];
      FirstsOfFirsts(init, key);
      KeysStay(init, key, key(last));
      FirstsOfOneMore(Firsts(init, key), last, key);
    }
  }

  /** Records that bring no new key leave the kept ones as they are. */
  lemma {:induction false} NothingNew<K>(s: seq<Record>, t: seq<Record>, key: Record -> K)
    requires forall i | 0 <= i < |t| :: Seen(s, key, key(t[i]))
    ensures Firsts(s + t, key) == Firsts(s, key)
  {
    if t == [] {
      assert s + t == s;
    } else {
      var init := t[..|t| - 1];
      NothingNew(s, init, key);
      var a := s + t;
      assert a[..|a| - 1] == s + init;
      var i :| 0 <= i < |s| && key(s[i]) == key(t[|t| - 1]);
      assert (s + init)[i] == s[i];
    }
  }

  method MakeSet(records: seq<Record>) returns (kept: seq<Record>)
    ensures kept == Firsts(records, Key)
  {
    var keys: set<string> := {};
    kept := [];
    for i := 0 to |records|
      invariant kept == Firsts(records[..i], Key)
      invariant forall k :: k in keys <==> Seen(records[..i], Key, k)
    {
      ghost var init, next := records[..i], records[..i + 1];
      assert next[..i] == init && next[i] == records[i];
      assert forall k :: Seen(next, Key, k) <==> Seen(init, Key, k) || k == Key(records[i]) by {
        assert forall j | 0 <= j < i :: next[j] == init[j];
      }
      if Key(records[i]) !in keys {
        keys := keys + {Key(records[i])};
        kept := kept + [records[i]];
      }
    }
    assert records[..|records|] == records;
  }

  /** The keys tell records apart as `Equal` would exactly if no two different actions in the
      list run together to the same key. */
  lemma KeysActLikeActionsIff(s: seq<Record>)
    ensures Firsts(s, Key) == Firsts(s, Action) <==>
            forall i, j | 0 <= i < |s| && 0 <= j < |s| && Key(s[i]) == Key(s[j]) :: Action(s[i]) == Action(s[j])
  {
    if forall i, j | 0 <= i < |s| && 0 <= j < |s| && Key(s[i]) == Key(s[j]) :: Action(s[i]) == Action(s[j]) {
      ClearKeysSuffice(s);
    } else {
      var i, j :| 0 <= i < |s| && 0 <= j < |s| && Key(s[i]) == Key(s[j]) && Action(s[i]) != Action(s[j]);
      ClashShows(s, s[i], s[j]);
    }
  }

  lemma ClashShows(s: seq<Record>, a: Record, b: Record)
    requires a in s && b in s && Key(a) == Key(b) && Action(a) != Action(b)
    ensures Firsts(s, Key) != Firsts(s, Action)
  {
    var f := Firsts(s, Action);
    KeysStay(s, Action, Action(a));
    KeysStay(s, Action, Action(b));
    var x :| 0 <= x < |f| && Action(f[x]) == Action(a);
    var y :| 0 <= y < |f| && Action(f[y]) == Action(b);
    KeysAreDistinct(s, Key);
    assert Key(f[x]) == Key(f[y]) && x != y;
  }

  lemma {:induction false} ClearKeysSuffice(s: seq<Record>)
    requires forall i, j | 0 <= i < |s| && 0 <= j < |s| && Key(s[i]) == Key(s[j]) :: Action(s[i]) == Action(s[j])
    ensures Firsts(s, Key) == Firsts(s, Action)
  {
    if s != [] {
      ClearKeysSuffice(s[..|s| - 1]);
    }
  }

  /** Sources without a dash, such as `s3.amazonaws.com`, never run together. */
  lemma DashlessSourcesStayApart(a: Record, b: Record)
    requires '-' !in a.source && '-' !in b.source && Key(a) == Key(b)
    ensures Action(a) == Action(b)
  {
    DashPosition(a, b);
    DashPosition(b, a);
    var x := |a.source|;
    assert a.source == Key(a)[..x] && b.source == Key(b)[..x];
    assert a.name == Key(a)[x + 1..] && b.name == Key(b)[x + 1..];
  }

  /** With a dash they can, and then one action hides the other. */
  lemma KeysCanRunTogether()
    ensures var a, b := Record("", "a-b", "c"), Record("", "a", "b-c");
            Action(a) != Action(b) && Firsts([a, b], Key) == [a]
  {
    var a, b := Record("", "a-b", "c"), Record("", "a", "b-c");
    assert |a.source| != |b.source|;
    assert Key(a) == Key(b) == "a-b-c";
    assert [a, b][..1] == [a] && [a][..0] == [];
    assert Seen([a], Key, Key(b)) by { assert Key([a][0]) == Key(b); }
  }

  lemma DashPosition(a: Record, b: Record)
    requires '-' !in b.source && Key(a) == Key(b)
    ensures |b.source| <= |a.source|
  {
    assert Key(b)[|a.source|] == '-';
    assert forall i | 0 <= i < |b.source| :: Key(b)[i] in b.source;
  }

  // ---- Which run a record belongs to ----

  predicate OccursAt(s: string, sub: string, i: nat) {
    i + |sub| <= |s| && s[i..i + |sub|] == sub
  }

  predicate Contains(s: string, sub: string) {
    exists i | 0 <= i <= |s| :: OccursAt(s, sub, i)
  }

  /** What follows the last slash, or everything. */
  function LastSegment(s: string): string {
    if s == "" || s[|s| - 1] == '/' then "" else LastSegment(s[..|s| - 1]) + [s[|s| - 1]]
  }

  /** An ARN is whatever, a slash and the run, or just the run. */
  lemma {:induction false} LastSegmentFollowsLastSlash(s: string)
    ensures '/' !in LastSegment(s)
    ensures LastSegment(s) == s || exists path :: s == path + "/" + LastSegment(s)
  {
    if s != "" && s[|s| - 1] == '/' {
      assert s == s[..|s| - 1] + "/" + "";
    } else if s != "" {
      var init, last := s[..|s| - 1], s[|s| - 1];
      LastSegmentFollowsLastSlash(init);
      assert s == init + [last];
      if LastSegment(init) != init {
        var path :| init == path + "/" + LastSegment(init);
        assert s == path + "/" + LastSegment(s);
      }
    }
  }

  /** The record was caused by a pod of ours. */
  predicate Ours(r: Record, account: string) { Contains(r.arn, account) && Contains(r.arn, "eks-") }

  function Only(s: seq<Record>, wanted: Record -> bool): seq<Record> {
    if s == [] then []
    else
      var init, last := s[..|s| - 1], s[|s| - 1];
      if wanted(last) then Only(init, wanted) + [last] else Only(init, wanted)
  }

  lemma OnlyOfOneMore(init: seq<Record>, last: Record, wanted: Record -> bool)
    ensures Only(init + [last], wanted) == Only(init, wanted) + if wanted(last) then [last] else []
  {
    assert (init + [last])[..|init|] == init;
  }

  lemma {:induction false} OnlyOfAppended(s: seq<Record>, t: seq<Record>, wanted: Record -> bool)
    ensures Only(s + t, wanted) == Only(s, wanted) + Only(t, wanted)
  {
    if t == [] {
      assert s + t == s;
    } else {
      var init, last := t[..|t| - 1], t[|t| - 1];
      OnlyOfAppended(s, init, wanted);
      assert s + t == s + init + [last];
      OnlyOfOneMore(s + init, last, wanted);
    }
  }

  function BelongsTo(account: string, run: string): Record -> bool {
    (r: Record) => Ours(r, account) && LastSegment(r.arn) == run
  }

  /** The records of one run, in order. */
  function Matching(records: seq<Record>, account: string, run: string): seq<Record> {
    Only(records, BelongsTo(account, run))
  }

  ghost predicate Has(s: string, part: string) {
    exists before, after :: s == before + part + after
  }

  /** What belongs to a run, without a word about how it is found: records of ours, which have both
      the service account and "eks-" in their ARN, whose ARN ends in the run, after a slash if there
      is one. They come in the order of the batch. */
  lemma {:induction false} MatchingAreTheRuns(records: seq<Record>, account: string, run: string)
    ensures forall r :: r in Matching(records, account, run) <==>
              && r in records && Has(r.arn, account) && Has(r.arn, "eks-")
              && '/' !in run && (r.arn == run || exists path :: r.arn == path + "/" + run)
  {
    forall r ensures r in Matching(records, account, run) <==> r in records && BelongsTo(account, run)(r) {
      OnlyKeepsWanted(records, BelongsTo(account, run), r);
    }
    forall r: Record ensures BelongsTo(account, run)(r) <==>
      && Has(r.arn, account) && Has(r.arn, "eks-")
      && '/' !in run && (r.arn == run || exists path :: r.arn == path + "/" + run)
    {
      ContainsIff(r.arn, account);
      ContainsIff(r.arn, "eks-");
      LastSegmentFollowsLastSlash(r.arn);
      if '/' !in run && r.arn == run { LastSegmentAfter("", run); }
      if path: string :| '/' !in run && r.arn == path + "/" + run { LastSegmentAfter(path + "/", run); }
    }
  }

  lemma {:induction false} OnlyKeepsWanted(s: seq<Record>, wanted: Record -> bool, r: Record)
    ensures r in Only(s, wanted) <==> r in s && wanted(r)
  {
    if s != [] {
      OnlyKeepsWanted(s[..|s| - 1], wanted, r);
      assert s == s[..|s| - 1] + [s[|s| - 1]];
    }
  }

  lemma ContainsIff(s: string, part: string)
    ensures Contains(s, part) <==> Has(s, part)
  {
    if Contains(s, part) {
      var i: nat :| i <= |s| && OccursAt(s, part, i);
      assert s == s[..i] + part + s[i + |part|..];
    } else if before, after :| s == before + part + after {
      assert OccursAt(s, part, |before|);
    }
  }

  lemma {:induction false} LastSegmentAfter(path: string, run: string)
    requires '/' !in run && (path == "" || path[|path| - 1] == '/')
    ensures LastSegment(path + run) == run
  {
    if run == "" {
      assert path + run == path;
    } else {
      var n := |run| - 1;
      assert (path + run)[..|path| + n] == path + run[..n];
      assert (path + run)[|path| + n] == run[n];
      LastSegmentAfter(path, run[..n]);
    }
  }

  // ---- The worker ----

  type Store = map<string, seq<Record>>

  /** Each run with records in the batch gets them added. */
  function Processed(store: Store, account: string, batch: seq<Record>): Store {
    map run | run in store :: Updated(store[run], Matching(batch, account, run))
  }

  function Updated(stored: seq<Record>, added: seq<Record>): seq<Record> {
    if added == [] then stored else Firsts(stored + added, Key)
  }

  method GroupByRun(account: string, batch: seq<Record>) returns (groups: Store)
    ensures forall run :: run in groups <==> Matching(batch, account, run) != []
    ensures forall run | run in groups :: groups[run] == Matching(batch, account, run)
  {
    groups := map[];
    for i := 0 to |batch|
      invariant forall run :: run in groups <==> Matching(batch[..i], account, run) != []
      invariant forall run | run in groups :: groups[run] == Matching(batch[..i], account, run)
    {
      var record := batch[i];
      assert batch[..i + 1] == batch[..i] + [record];
      forall run { OnlyOfOneMore(batch[..i], record, BelongsTo(account, run)); }
      if Ours(record, account) {
        var run := LastSegment(record.arn);
        groups := groups[run := (if run in groups then groups[run] else []) + [record]];
      }
    }
    assert batch[..|batch|] == batch;
  }

  /** One group; a run that is not stored is passed over. */
  method UpdateRun(store: Store, run: string, records: seq<Record>) returns (after: Store)
    requires records != []
    ensures after.Keys == store.Keys
    ensures forall r | r in store :: after[r] == if r == run then Updated(store[r], records) else store[r]
  {
    after := store;
    if run in store {
      var stored := store[run];
      var raw := if stored == [] then records else stored + records;
      assert raw == stored + records;
      var kept := MakeSet(raw);
      if kept != [] {
        after := after[run := kept];
      }
    }
  }

  /** The groups are visited in any order. */
  method ProcessGroups(store: Store, groups: Store) returns (after: Store)
    requires forall run | run in groups :: groups[run] != []
    ensures after.Keys == store.Keys
    ensures forall run | run in store ::
              after[run] == if run in groups then Updated(store[run], groups[run]) else store[run]
  {
    after := store;
    var todo := groups.Keys;
    while todo != {}
      invariant todo <= groups.Keys && after.Keys == store.Keys
      invariant forall run | run in store ::
          after[run] == if run in groups && run !in todo then Updated(store[run], groups[run]) else store[run]
      decreases todo
    {
      var run :| run in todo;
      after := UpdateRun(after, run, groups[run]);
      todo := todo - {run};
    }
  }

  method ProcessNotifications(store: Store, account: string, batch: seq<Record>) returns (after: Store)
    ensures after == Processed(store, account, batch)
  {
    var groups := GroupByRun(account, batch);
    after := ProcessGroups(store, groups);
  }

  lemma UpdatedKeepsFirsts(s: seq<Record>, added: seq<Record>)
    ensures Updated(Firsts(s, Key), added) == Firsts(s + added, Key)
  {
    FirstsOfAppended(s, added, Key);
    if added == [] { assert s + added == s; }
  }

  /** Two updates in a row are one with both batches. */
  lemma UpdatesAddUp(stored: seq<Record>, first: seq<Record>, second: seq<Record>)
    ensures Updated(Updated(stored, first), second) == Updated(stored, first + second)
  {
    if first == [] {
      assert first + second == second;
    } else {
      UpdatedKeepsFirsts(stored + first, second);
      assert stored + first + second == stored + (first + second);
    }
  }

  function AfterBatches(store: Store, account: string, batches: seq<seq<Record>>): (after: Store) {
    if batches == [] then store
    else Processed(AfterBatches(store, account, batches[..|batches| - 1]), account, batches[|batches| - 1])
  }

  function All(batches: seq<seq<Record>>): seq<Record> {
    if batches == [] then [] else All(batches[..|batches| - 1]) + batches[|batches| - 1]
  }

  /** Batch after batch a run holds what one pass over everything would have given: the first
      record of each key among those it started with and all that name it, or just those it started
      with if none do. */
  lemma {:induction false} IncrementalIsBatch(store: Store, account: string, batches: seq<seq<Record>>, run: string)
    requires run in store
    ensures run in AfterBatches(store, account, batches)
    ensures AfterBatches(store, account, batches)[run] == Updated(store[run], Matching(All(batches), account, run))
  {
    if batches != [] {
      var init, last := batches[..|batches| - 1], batches[|batches| - 1];
      IncrementalIsBatch(store, account, init, run);
      UpdatesAddUp(store[run], Matching(All(init), account, run), Matching(last, account, run));
      OnlyOfAppended(All(init), last, BelongsTo(account, run));
    }
  }

  lemma {:induction false} KeysOfAll(batches: seq<seq<Record>>, account: string, run: string, b: nat, r: Record)
    requires b < |batches| && r in Matching(batches[b], account, run)
    ensures r in Matching(All(batches), account, run)
  {
    var init, last := batches[..|batches| - 1], batches[|batches| - 1];
    OnlyOfAppended(All(init), last, BelongsTo(account, run));
    if b < |init| { KeysOfAll(init, account, run, b, r); }
  }

  /** Any earlier batch delivered again, at any later time, changes nothing. */
  lemma ReplayChangesNothing(store: Store, account: string, batches: seq<seq<Record>>, b: nat)
    requires b < |batches|
    ensures AfterBatches(store, account, batches + [batches[b]]) == AfterBatches(store, account, batches)
  {
    var after := AfterBatches(store, account, batches);
    KeysOfStore(store, account, batches);
    var more := batches + [batches[b]];
    assert more[..|batches|] == batches;
    forall run | run in store ensures Updated(after[run], Matching(batches[b], account, run)) == after[run] {
      var all, added := Matching(All(batches), account, run), Matching(batches[b], account, run);
      IncrementalIsBatch(store, account, batches, run);
      forall i | 0 <= i < |added| ensures added[i] in all {
        KeysOfAll(batches, account, run, b, added[i]);
      }
      KnownAddNothing(store[run], all, added);
    }
  }

  lemma KnownAddNothing(stored: seq<Record>, all: seq<Record>, added: seq<Record>)
    requires forall i | 0 <= i < |added| :: added[i] in all
    ensures Updated(Updated(stored, all), added) == Updated(stored, all)
  {
    if added != [] {
      assert added[0] in all;
      UpdatedKeepsFirsts(stored + all, added);
      forall i | 0 <= i < |added| ensures Seen(stored + all, Key, Key(added[i])) {
        var j :| 0 <= j < |all| && all[j] == added[i];
        assert (stored + all)[|stored| + j] == added[i];
      }
      NothingNew(stored + all, added, Key);
    }
  }

  lemma {:induction false} KeysOfStore(store: Store, account: string, batches: seq<seq<Record>>)
    ensures AfterBatches(store, account, batches).Keys == store.Keys
  {
    if batches != [] { KeysOfStore(store, account, batches[..|batches| - 1]); }
  }
}
