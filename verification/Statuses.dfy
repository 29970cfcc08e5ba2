/** Run statuses and the rule by which a stored status absorbs a written one
    (the last block of `Run.UpdateWith`, state/models.go). */
module Statuses {

  /** The five statuses the program names, and every other string, the empty one included. */
  datatype Status = NeedsRetry | Queued | Pending | Running | Stopped | Other(text: string) {
    predicate Valid() { !Other? }
  }

  /** `statusPrecedence`; a status outside the table gets a number that nothing reads. */
  function Precedence(s: Status): int {
    match s
    case NeedsRetry => -1
    case Queued => 0
    case Pending => 1
    case Running => 2
    case Stopped => 3
    case Other(_) => -2
  }

  function Merge(current: Status, written: Status): Status {
    if written == NeedsRetry then NeedsRetry
    else if current.Valid() && written.Valid() && Precedence(written) > Precedence(current) then written
    else current
  }

  /** The stored status after a run created with `born` has absorbed `writes`, oldest first. */
  function Replay(born: Status, writes: seq<Status>): Status {
    if writes == [] then born
    else Merge(Replay(born, writes[..|writes| - 1]), writes[|writes| - 1])
  }

  /** What still matters of a history: everything since the last NEEDS_RETRY, or all of it. */
  ghost function Window(born: Status, writes: seq<Status>): set<Status> {
    if writes == [] then {born}
    else
      var last := writes[|writes| - 1];
      if last == NeedsRetry then {NeedsRetry}
      else Window(born, writes[..|writes| - 1]) + {last}
  }

  /** The life of a run is QUEUED, PENDING, RUNNING, STOPPED; one that is to be retried is before all
      of that. `t` comes later than `s`. */
  predicate Later(t: Status, s: Status) {
    match s
    case NeedsRetry => t == Queued || t == Pending || t == Running || t == Stopped
    case Queued => t == Pending || t == Running || t == Stopped
    case Pending => t == Running || t == Stopped
    case Running => t == Stopped
    case Stopped => false
    case Other(_) => false
  }

  /** `s` is the latest valid status of the window. */
  ghost predicate IsHighest(window: set<Status>, s: Status) {
    s in window && s.Valid() && forall t | t in window :: !Later(t, s)
  }

  ghost predicate RetriedAfter(writes: seq<Status>, i: nat)
    requires i < |writes|
  {
    NeedsRetry in writes[i + 1..]
  }

  /** The window, read off positions: a status is in it exactly when it was written at or after
      every NEEDS_RETRY write, or is the initial status of a run never sent to retry. */
  lemma {:induction false} WindowByPosition(born: Status, writes: seq<Status>, s: Status)
    ensures s in Window(born, writes) <==>
              || (s == born && NeedsRetry !in writes)
              || (exists i :: 0 <= i < |writes| && writes[i] == s && !RetriedAfter(writes, i))
  {
    if writes != [] {
      var n := |writes| - 1;
      var front := writes[..n];
      assert writes == front + [writes[n]];
      WindowByPosition(born, front, s);
      if writes[n] == NeedsRetry {
        assert NeedsRetry in writes;
        forall i | 0 <= i < n ensures RetriedAfter(writes, i) {
          assert writes[i + 1..][n - i - 1] == NeedsRetry;
        }
        assert writes[n + 1..] == [];
      } else {
        forall i | 0 <= i < n ensures RetriedAfter(writes, i) <==> RetriedAfter(front, i) {
          assert writes[i + 1..] == front[i + 1..] + [writes[n]];
        }
        assert writes[n + 1..] == [];
      }
    }
  }

  /** The stored status is exactly the highest valid status of the window, whatever the order
      in which the writers of that window got through. */
  lemma {:induction false} ReplayIsHighest(born: Status, writes: seq<Status>, s: Status)
    requires born.Valid()
    ensures Replay(born, writes) == s <==> IsHighest(Window(born, writes), s)
  {
    if writes != [] {
      var front := writes[..|writes| - 1];
      ReplayIsHighest(born, front, Replay(born, front));
    }
    HighestIsUnique(Window(born, writes), Replay(born, writes), s);
  }

  lemma HighestIsUnique(window: set<Status>, s: Status, t: Status)
    requires IsHighest(window, s)
    ensures IsHighest(window, t) <==> s == t
  {
    if IsHighest(window, t) {
      assert !Later(s, t) && !Later(t, s);
    }
  }

  /** Two histories without NEEDS_RETRY that contain the same statuses end in the same status:
      order and repetition of the writes do not matter. */
  lemma OrderAndRepetitionDoNotMatter(born: Status, ws: seq<Status>, vs: seq<Status>)
    requires born.Valid()
    requires NeedsRetry !in ws
    requires forall s :: s in ws <==> s in vs
    ensures Replay(born, ws) == Replay(born, vs)
  {
    forall s ensures s in Window(born, ws) <==> s in Window(born, vs) {
      WindowWithoutRetry(born, ws, s);
      WindowWithoutRetry(born, vs, s);
    }
    assert Window(born, ws) == Window(born, vs);
    ReplayIsHighest(born, ws, Replay(born, ws));
    ReplayIsHighest(born, vs, Replay(born, ws));
  }

  lemma {:induction false} WindowWithoutRetry(born: Status, ws: seq<Status>, s: Status)
    requires NeedsRetry !in ws
    ensures s in Window(born, ws) <==> s == born || s in ws
  {
    if ws != [] {
      var n := |ws| - 1;
      assert ws == ws[..n] + [ws[n]];
      WindowWithoutRetry(born, ws[..n], s);
    }
  }

  /** Between NEEDS_RETRY writes a stored status never moves back, and STOPPED stays. */
  lemma MergeNeverLowers(current: Status, written: Status)
    requires written != NeedsRetry
    ensures Merge(current, written) == current || Later(Merge(current, written), current)
    ensures current == Stopped ==> Merge(current, written) == Stopped
    ensures current.Valid() ==> Merge(current, written).Valid()
  {}

  /** Of two different statuses of a life the later one is stored, whichever is written first. */
  lemma LaterStatusWins(i: nat, j: nat)
    requires i < j < 4
    ensures var life := [Queued, Pending, Running, Stopped];
            Merge(life[i], life[j]) == life[j] && Merge(life[j], life[i]) == life[j]
  {}

  /** NEEDS_RETRY overrides everything, and everything of a life overrides it; a status outside the
      table neither overrides nor is overridden. */
  lemma RetryAndOthers(s: Status, text: string)
    ensures Merge(s, NeedsRetry) == NeedsRetry
    ensures s in {Queued, Pending, Running, Stopped} ==> Merge(NeedsRetry, s) == s
    ensures Merge(s, Other(text)) == s
    ensures s != NeedsRetry ==> Merge(Other(text), s) == Other(text)
  {}
}
