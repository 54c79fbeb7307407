/**
 * Operations on the in-memory list of results: finding the record of a
 * phase, replacing it (`remove` then `append`), and the counts of the
 * report (`generate_report`).
 */
module Store {
  import opened Wrappers
  import opened Phases

  /** At most one record per phase number. */
  predicate Unique(rs: seq<PhaseResult>) {
    forall i, j :: 0 <= i < j < |rs| ==> rs[i].phaseNumber != rs[j].phaseNumber
  }

  /** `next((r for r in results if r.phase_number == p), None)`. */
  function FirstFor(rs: seq<PhaseResult>, p: int): Option<PhaseResult> {
    if rs == [] then None
    else if rs[0].phaseNumber == p then Some(rs[0])
    else FirstFor(rs[1..], p)
  }

  /** There is no match exactly when no record has phase p; a match is the first record that has it. */
  lemma {:induction false} FirstForSpec(rs: seq<PhaseResult>, p: int)
    ensures var r := FirstFor(rs, p);
      && (r.None? <==> forall j :: 0 <= j < |rs| ==> rs[j].phaseNumber != p)
      && (r.Some? ==> exists j :: 0 <= j < |rs| && rs[j] == r.value && r.value.phaseNumber == p
                                 && forall k :: 0 <= k < j ==> rs[k].phaseNumber != p)
  {
    if rs != [] && rs[0].phaseNumber != p {
      FirstForSpec(rs[1..], p);
      var r := FirstFor(rs, p);
      if r.Some? {
        var j :| 0 <= j < |rs| - 1 && rs[1..][j] == r.value && r.value.phaseNumber == p
                 && forall k :: 0 <= k < j ==> rs[1..][k].phaseNumber != p;
        assert rs[j + 1] == r.value;
      }
    }
  }

  /** `results.remove(existing)` for the first record of phase p; nothing when there is none. */
  function RemoveFirst(rs: seq<PhaseResult>, p: int): seq<PhaseResult> {
    if rs == [] then []
    else if rs[0].phaseNumber == p then rs[1..]
    else [rs[0]] + RemoveFirst(rs[1..], p)
  }

  /** Without a record of p nothing is removed; otherwise exactly its first record is. */
  lemma {:induction false} RemoveFirstSpec(rs: seq<PhaseResult>, p: int)
    ensures var r := RemoveFirst(rs, p);
      && (FirstFor(rs, p).None? ==> r == rs)
      && (FirstFor(rs, p).Some? ==> |r| == |rs| - 1 && multiset(r) + multiset{FirstFor(rs, p).value} == multiset(rs))
      && multiset(r) <= multiset(rs)
  {
    if rs != [] {
      assert rs == [rs[0]] + rs[1..];
      if rs[0].phaseNumber != p {
        RemoveFirstSpec(rs[1..], p);
      }
    }
  }

  /** The update of `run_phases`: drop the phase's old record, then append the new one. */
  function Upsert(rs: seq<PhaseResult>, r: PhaseResult): seq<PhaseResult> {
    RemoveFirst(rs, r.phaseNumber) + [r]
  }

  /** The records of phases other than p, in their order. */
  function Others(rs: seq<PhaseResult>, p: int): seq<PhaseResult> {
    if rs == [] then [] else (if rs[0].phaseNumber == p then [] else [rs[0]]) + Others(rs[1..], p)
  }

  lemma {:induction false} OthersAppend(a: seq<PhaseResult>, b: seq<PhaseResult>, p: int)
    ensures Others(a + b, p) == Others(a, p) + Others(b, p)
  {
    if a != [] {
      assert (a + b)[1..] == a[1..] + b;
      OthersAppend(a[1..], b, p);
    } else {
      assert a + b == b;
    }
  }

  lemma {:induction false} OthersRemoveFirst(rs: seq<PhaseResult>, p: int)
    ensures Others(RemoveFirst(rs, p), p) == Others(rs, p)
  {
    if rs != [] && rs[0].phaseNumber != p {
      OthersRemoveFirst(rs[1..], p);
      OthersAppend([rs[0]], RemoveFirst(rs[1..], p), p);
    }
  }

  /** Every record left after the removal was there before. */
  lemma {:induction false} RemoveFirstMembers(rs: seq<PhaseResult>, p: int)
    ensures forall x :: x in RemoveFirst(rs, p) ==> x in rs
  {
    if rs != [] && rs[0].phaseNumber != p {
      RemoveFirstMembers(rs[1..], p);
      assert forall x :: x in rs[1..] ==> x in rs;
    }
  }

  lemma {:induction false} RemoveFirstUnique(rs: seq<PhaseResult>, p: int)
    requires Unique(rs)
    ensures Unique(RemoveFirst(rs, p))
    ensures forall k :: 0 <= k < |RemoveFirst(rs, p)| ==> RemoveFirst(rs, p)[k].phaseNumber != p
  {
    if rs != [] && rs[0].phaseNumber != p {
      var tail := RemoveFirst(rs[1..], p);
      assert Unique(rs[1..]) by {
        forall i, j | 0 <= i < j < |rs[1..]| ensures rs[1..][i].phaseNumber != rs[1..][j].phaseNumber {
          assert rs[1..][i] == rs[i + 1] && rs[1..][j] == rs[j + 1];
        }
      }
      RemoveFirstUnique(rs[1..], p);
      RemoveFirstMembers(rs[1..], p);
      forall k | 0 <= k < |tail|
        ensures tail[k].phaseNumber != rs[0].phaseNumber
      {
        assert tail[k] in rs[1..];
        var i :| 0 <= i < |rs[1..]| && rs[1..][i] == tail[k];
        assert rs[i + 1] == tail[k];
      }
      var r := [rs[0]] + tail;
      forall i, j | 0 <= i < j < |r| ensures r[i].phaseNumber != r[j].phaseNumber {
        if i > 0 {
          assert r[i] == tail[i - 1];
        }
        assert r[j] == tail[j - 1];
      }
    }
  }

  /**
   * After the update, the new record is the last one, the records of other
   * phases keep their relative order, and uniqueness per phase is kept with
   * the new record as the only one of its phase.
   */
  lemma {:induction false} UpsertProperties(rs: seq<PhaseResult>, r: PhaseResult)
    ensures var u := Upsert(rs, r);
      && |u| > 0 && u[|u| - 1] == r
      && Others(u, r.phaseNumber) == Others(rs, r.phaseNumber)
      && |u| == (if FirstFor(rs, r.phaseNumber).Some? then |rs| else |rs| + 1)
    ensures Unique(rs) ==>
      var u := Upsert(rs, r);
      && Unique(u)
      && (forall k :: 0 <= k < |u| - 1 ==> u[k].phaseNumber != r.phaseNumber)
      && FirstFor(u, r.phaseNumber) == Some(r)
  {
    var p := r.phaseNumber;
    var u := Upsert(rs, r);
    RemoveFirstSpec(rs, p);
    OthersRemoveFirst(rs, p);
    OthersAppend(RemoveFirst(rs, p), [r], p);
    if Unique(rs) {
      RemoveFirstUnique(rs, p);
      FirstForSpec(RemoveFirst(rs, p), p);
      FirstForAppend(RemoveFirst(rs, p), r, p);
    }
  }

  /** The update keeps the first record of every other phase. */
  lemma {:induction false} FirstForRemoveFirstOther(rs: seq<PhaseResult>, p: int, q: int)
    requires q != p
    ensures FirstFor(RemoveFirst(rs, p), q) == FirstFor(rs, q)
  {
    if rs != [] && rs[0].phaseNumber != p {
      var tail := RemoveFirst(rs[1..], p);
      assert ([rs[0]] + tail)[1..] == tail;
      FirstForRemoveFirstOther(rs[1..], p, q);
    }
  }

  lemma {:induction false} FirstForAppend(rs: seq<PhaseResult>, r: PhaseResult, q: int)
    ensures FirstFor(rs + [r], q) == if FirstFor(rs, q).Some? then FirstFor(rs, q) else FirstFor([r], q)
  {
    if rs != [] {
      assert (rs + [r])[1..] == rs[1..] + [r];
      FirstForAppend(rs[1..], r, q);
    } else {
      assert rs + [r] == [r];
    }
  }

  lemma UpsertOtherPhase(rs: seq<PhaseResult>, r: PhaseResult, q: int)
    requires q != r.phaseNumber
    ensures FirstFor(Upsert(rs, r), q) == FirstFor(rs, q)
  {
    FirstForRemoveFirstOther(rs, r.phaseNumber, q);
    FirstForAppend(RemoveFirst(rs, r.phaseNumber), r, q);
  }

  /** Every record after the update was there before, or is the new one. */
  lemma UpsertMembers(rs: seq<PhaseResult>, r: PhaseResult)
    ensures forall x :: x in Upsert(rs, r) ==> x in rs || x == r
  {
    RemoveFirstMembers(rs, r.phaseNumber);
  }

  /** `[r for r in results if r.status == s]`. */
  function WithStatus(rs: seq<PhaseResult>, s: PhaseStatus): (r: seq<PhaseResult>)
    ensures forall i :: 0 <= i < |r| ==> r[i].status == s
  {
    if rs == [] then [] else (if rs[0].status == s then [rs[0]] else []) + WithStatus(rs[1..], s)
  }

  /** The filter keeps every record of status s, as many times as it occurs, and nothing else. */
  lemma {:induction false} WithStatusCounts(rs: seq<PhaseResult>, s: PhaseStatus)
    ensures multiset(WithStatus(rs, s)) <= multiset(rs)
    ensures forall x: PhaseResult :: x.status == s ==> multiset(WithStatus(rs, s))[x] == multiset(rs)[x]
  {
    if rs != [] {
      assert rs == [rs[0]] + rs[1..];
      WithStatusCounts(rs[1..], s);
    }
  }

  /** The `summary` block of the report. */
  datatype Summary = Summary(total: nat, completed: nat, failed: nat, skipped: nat)

  function Summarize(rs: seq<PhaseResult>): Summary {
    Summary(|rs|, |WithStatus(rs, Completed)|, |WithStatus(rs, Failed)|, |WithStatus(rs, Skipped)|)
  }

  function TerminalCount(rs: seq<PhaseResult>): nat {
    if rs == [] then 0 else (if Terminal(rs[0].status) then 1 else 0) + TerminalCount(rs[1..])
  }

  lemma WithStatusStep(rs: seq<PhaseResult>, s: PhaseStatus)
    requires rs != []
    ensures |WithStatus(rs, s)| == (if rs[0].status == s then 1 else 0) + |WithStatus(rs[1..], s)|
  {
  }

  lemma {:induction false} AllTerminalCount(rs: seq<PhaseResult>)
    requires forall x :: x in rs ==> Terminal(x.status)
    ensures TerminalCount(rs) == |rs|
  {
    if rs != [] {
      assert rs[0] in rs;
      assert forall x :: x in rs[1..] ==> x in rs;
      AllTerminalCount(rs[1..]);
    }
  }

  /**
   * completed + failed + skipped counts the records in a terminal status,
   * so it never exceeds the total.
   */
  lemma {:induction false} SummaryCounts(rs: seq<PhaseResult>)
    ensures var s := Summarize(rs); s.completed + s.failed + s.skipped == TerminalCount(rs) <= s.total
  {
    if rs != [] {
      var t := rs[1..];
      SummaryCounts(t);
      WithStatusStep(rs, Completed);
      WithStatusStep(rs, Failed);
      WithStatusStep(rs, Skipped);
      var c, f, k := |WithStatus(rs, Completed)|, |WithStatus(rs, Failed)|, |WithStatus(rs, Skipped)|;
      assert c + f + k == (if Terminal(rs[0].status) then 1 else 0) + TerminalCount(t);
    }
  }

  /** When no record is pending or in progress, the three counts add up to the total. */
  lemma SummaryOfTerminal(rs: seq<PhaseResult>)
    requires forall x :: x in rs ==> Terminal(x.status)
    ensures var s := Summarize(rs); s.completed + s.failed + s.skipped == s.total
  {
    SummaryCounts(rs);
    AllTerminalCount(rs);
  }

  /** A record the report can print: a completed record carries its duration. */
  predicate Timed(x: PhaseResult) {
    x.status == Completed ==> x.durationSeconds.Some?
  }

  /**
   * The summary `generate_report` writes, or None when it raises first:
   * printing the duration of a completed record that has none is a
   * TypeError, and it comes before the report file is written.
   */
  function Report(rs: seq<PhaseResult>): (r: Option<Summary>)
    ensures r.Some? <==> forall x :: x in rs ==> Timed(x)
    ensures r.Some? ==> r.value.total == |rs| && r.value.completed + r.value.failed + r.value.skipped <= |rs|
  {
    SummaryCounts(rs);
    if forall x :: x in rs ==> Timed(x) then Some(Summarize(rs)) else None
  }
}
