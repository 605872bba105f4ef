// Price levels of a coverage (core/db/repo/coverage.py, set_levels): rows are only ever
// added or superseded, and the active ones refine a map from coverage and kind to the
// last level written.
//
// The query for the rows to supersede sees this call's own earlier inserts only if the
// session flushes before it reads; `flushes` says which kind of session it is.
module Levels {
  import opened Domain

  datatype LevelKind = Entry | Target | Stop | Review | Unlisted(name: string)

  datatype Level = Level(kind: LevelKind, value: real, currency: string, direction: string)

  datatype Row = Row(
    coverage: CoverageId, level: Level, setBy: string, run: Option<RunId>, active: bool, supersededAt: Option<Time>)

  // The table's check constraints.
  predicate Insertable(l: Level) {
    !l.kind.Unlisted? && l.value > 0.0 && (l.direction == "below" || l.direction == "above")
  }

  predicate AllInsertable(levels: seq<Level>) {
    forall i | 0 <= i < |levels| :: Insertable(levels[i])
  }

  predicate Holds(r: Row, c: CoverageId, kind: LevelKind) {
    r.coverage == c && r.level.kind == kind && r.active
  }

  function Retired(r: Row, now: Time): Row {
    r.(active := false, supersededAt := Some(now))
  }

  // Supersede what the query over the first `seen` rows finds.
  function Retire(rows: seq<Row>, seen: nat, c: CoverageId, kind: LevelKind, now: Time): (after: seq<Row>)
    requires seen <= |rows|
    ensures |after| == |rows|
  {
    seq(|rows|, i requires 0 <= i < |rows| =>
      if i < seen && Holds(rows[i], c, kind) then Retired(rows[i], now) else rows[i])
  }

  function NewRow(c: CoverageId, l: Level, setBy: string, run: Option<RunId>): Row {
    Row(c, l, setBy, run, true, None)
  }

  datatype Call = Call(coverage: CoverageId, levels: seq<Level>, setBy: string, run: Option<RunId>, now: Time)

  // The first n levels of the call.
  function SetUpTo(rows: seq<Row>, call: Call, n: nat, flushes: bool): (after: seq<Row>)
    requires n <= |call.levels|
    ensures |after| == |rows| + n
  {
    if n == 0 then rows
    else
      var before := SetUpTo(rows, call, n - 1, flushes);
      var l := call.levels[n - 1];
      Retire(before, if flushes then |before| else |rows|, call.coverage, l.kind, call.now)
      + [NewRow(call.coverage, l, call.setBy, call.run)]
  }

  // None: some level breaks a constraint and the transaction fails.
  function SetLevels(rows: seq<Row>, call: Call, flushes: bool): Option<seq<Row>> {
    if AllInsertable(call.levels) then Some(SetUpTo(rows, call, |call.levels|, flushes)) else None
  }

  // ---- the class

  class LevelStore {
    const flushes: bool
    var rows: seq<Row>

    constructor (flushes: bool)
      ensures this.flushes == flushes && rows == []
    {
      this.flushes, rows := flushes, [];
    }

    method Supersede(seen: nat, c: CoverageId, kind: LevelKind, now: Time)
      requires seen <= |rows|
      modifies this
      ensures rows == Retire(old(rows), seen, c, kind, now)
    {
      for i := 0 to seen
        invariant |rows| == |old(rows)|
        invariant forall j | 0 <= j < |rows| ::
                    rows[j] == if j < i && Holds(old(rows)[j], c, kind) then Retired(old(rows)[j], now)
                        else old(rows)[j]
      {
        if Holds(rows[i], c, kind) {
          rows := rows[i := rows[i].(active := false)];
          rows := rows[i := rows[i].(supersededAt := Some(now))];
        }
      }
    }

    // False: rolled back.
    method SetLevels(call: Call) returns (ok: bool)
      modifies this
      ensures ok <==> AllInsertable(call.levels)
      ensures rows == if ok then SetUpTo(old(rows), call, |call.levels|, flushes) else old(rows)
    {
      var before := rows;
      for i := 0 to |call.levels|
        invariant rows == SetUpTo(before, call, i, flushes)
        invariant forall j | 0 <= j < i :: Insertable(call.levels[j])
      {
        var l := call.levels[i];
        Supersede(if flushes then |rows| else |before|, call.coverage, l.kind, call.now);
        if !Insertable(l) {
          rows := before;
          return false;
        }
        rows := rows + [NewRow(call.coverage, l, call.setBy, call.run)];
      }
      return true;
    }
  }

  // ---- the map it refines

  type Slots = map<(CoverageId, LevelKind), Level>

  function Written(m: Slots, call: Call, n: nat): Slots
    requires n <= |call.levels|
  {
    if n == 0 then m
    else Written(m, call, n - 1)[(call.coverage, call.levels[n - 1].kind) := call.levels[n - 1]]
  }

  function SlotOf(r: Row): (CoverageId, LevelKind) {
    (r.coverage, r.level.kind)
  }

  ghost predicate OneActive(rows: seq<Row>) {
    forall i, j | 0 <= i < j < |rows| && rows[i].active && rows[j].active :: SlotOf(rows[i]) != SlotOf(rows[j])
  }

  ghost predicate HasActive(rows: seq<Row>, slot: (CoverageId, LevelKind)) {
    exists i :: 0 <= i < |rows| && rows[i].active && SlotOf(rows[i]) == slot
  }

  // Each slot of the map has exactly one active row, holding the slot's level, and there
  // is no other active row.
  ghost predicate Refines(rows: seq<Row>, m: Slots) {
    && OneActive(rows)
    && (forall i | 0 <= i < |rows| && rows[i].active :: SlotOf(rows[i]) in m && m[SlotOf(rows[i])] == rows[i].level)
    && (forall slot | slot in m :: HasActive(rows, slot))
  }

  lemma OneWriteRefines(rows: seq<Row>, m: Slots, c: CoverageId, l: Level, setBy: string, run: Option<RunId>, now: Time)
    requires Refines(rows, m)
    ensures Refines(Retire(rows, |rows|, c, l.kind, now) + [NewRow(c, l, setBy, run)], m[(c, l.kind) := l])
  {
    var after := Retire(rows, |rows|, c, l.kind, now) + [NewRow(c, l, setBy, run)];
    var written := m[(c, l.kind) := l];
    forall slot | slot in written ensures HasActive(after, slot) {
      if slot == (c, l.kind) {
        assert after[|rows|].active && SlotOf(after[|rows|]) == slot;
      } else {
        var i :| 0 <= i < |rows| && rows[i].active && SlotOf(rows[i]) == slot;
        assert after[i] == rows[i];
      }
    }
  }

  // One call, lists that repeat a kind included.
  lemma {:induction false} CallRefines(rows: seq<Row>, m: Slots, call: Call, n: nat)
    requires Refines(rows, m) && n <= |call.levels|
    ensures Refines(SetUpTo(rows, call, n, true), Written(m, call, n))
    decreases n
  {
    if n > 0 {
      CallRefines(rows, m, call, n - 1);
      OneWriteRefines(SetUpTo(rows, call, n - 1, true), Written(m, call, n - 1), call.coverage, call.levels[n - 1],
                      call.setBy, call.run, call.now);
    }
  }

  // Any sequence of calls; one that fails leaves everything as it was.
  function AfterCalls(calls: seq<Call>): seq<Row> {
    if calls == [] then []
    else
      var before := AfterCalls(calls[..|calls| - 1]);
      var after := SetLevels(before, calls[|calls| - 1], true);
      if after.Some? then after.value else before
  }

  function WrittenBy(calls: seq<Call>): Slots {
    if calls == [] then map[]
    else
      var before := WrittenBy(calls[..|calls| - 1]);
      var call := calls[|calls| - 1];
      if AllInsertable(call.levels) then Written(before, call, |call.levels|) else before
  }

  // Whatever was called, each coverage and kind has at most one active row and it holds
  // the last level written for that kind.
  lemma {:induction false} LevelsRefineMap(calls: seq<Call>)
    ensures Refines(AfterCalls(calls), WrittenBy(calls))
  {
    if calls != [] {
      var init := calls[..|calls| - 1];
      var call := calls[|calls| - 1];
      LevelsRefineMap(init);
      CallRefines(AfterCalls(init), WrittenBy(init), call, |call.levels|);
    }
  }

  // ---- history is kept

  // Rows keep what was written; a row leaves the active set once, stamped with the time.
  ghost predicate Kept(rows: seq<Row>, after: seq<Row>) {
    && |rows| <= |after|
    && forall i | 0 <= i < |rows| ::
         && after[i] == rows[i].(active := after[i].active, supersededAt := after[i].supersededAt)
         && (rows[i].active && !after[i].active ==> after[i].supersededAt.Some?)
         && (after[i].active == rows[i].active ==> after[i] == rows[i])
         && (after[i].active ==> rows[i].active)
  }

  lemma {:induction false} CallKeepsRows(rows: seq<Row>, call: Call, n: nat, flushes: bool)
    requires n <= |call.levels|
    ensures Kept(rows, SetUpTo(rows, call, n, flushes))
    decreases n
  {
    if n > 0 {
      CallKeepsRows(rows, call, n - 1, flushes);
    }
  }

  // All rows ever written survive every later sequence of calls.
  lemma {:induction false} EarlierRowsSurvive(calls: seq<Call>, n: nat)
    requires n <= |calls|
    ensures Kept(AfterCalls(calls[..n]), AfterCalls(calls))
    decreases |calls|
  {
    if n == |calls| {
      assert calls[..n] == calls;
    } else {
      var init := calls[..|calls| - 1];
      assert init[..n] == calls[..n];
      EarlierRowsSurvive(init, n);
      var call := calls[|calls| - 1];
      CallKeepsRows(AfterCalls(init), call, |call.levels|, true);
      var a, b, c := AfterCalls(calls[..n]), AfterCalls(init), AfterCalls(calls);
      assert Kept(b, c);
      assert forall i | 0 <= i < |a| :: b[i] == a[i].(active := b[i].active, supersededAt := b[i].supersededAt);
    }
  }

  // ---- sessions that do not flush before reading

  ghost predicate DistinctKinds(levels: seq<Level>, n: nat)
    requires n <= |levels|
  {
    forall i, j | 0 <= i < j < n :: levels[i].kind != levels[j].kind
  }

  predicate WritesKind(call: Call, n: nat, kind: LevelKind)
    requires n <= |call.levels|
  {
    exists k :: 0 <= k < n && call.levels[k].kind == kind
  }

  // Old rows of a written kind are superseded; every new row stays active.
  lemma {:induction false} UnflushedRows(rows: seq<Row>, call: Call, n: nat)
    requires n <= |call.levels|
    ensures var after := SetUpTo(rows, call, n, false);
            && (forall i | 0 <= i < |rows| :: after[i].active <==>
                  rows[i].active && !(rows[i].coverage == call.coverage && WritesKind(call, n, rows[i].level.kind)))
            && (forall i | 0 <= i < |rows| :: SlotOf(after[i]) == SlotOf(rows[i]))
            && (forall k | 0 <= k < n ::
                  after[|rows| + k] == NewRow(call.coverage, call.levels[k], call.setBy, call.run))
    decreases n
  {
    if n > 0 {
      UnflushedRows(rows, call, n - 1);
    }
  }

  // Then a call keeps one active row per kind if and only if its list repeats no kind.
  lemma UnflushedKeepsOneIff(rows: seq<Row>, call: Call)
    requires OneActive(rows)
    ensures OneActive(SetUpTo(rows, call, |call.levels|, false)) <==> DistinctKinds(call.levels, |call.levels|)
  {
    var n := |call.levels|;
    var after := SetUpTo(rows, call, n, false);
    UnflushedRows(rows, call, n);
    if OneActive(after) {
      forall i, j | 0 <= i < j < n ensures call.levels[i].kind != call.levels[j].kind {
        assert after[|rows| + i] == NewRow(call.coverage, call.levels[i], call.setBy, call.run);
        assert after[|rows| + j] == NewRow(call.coverage, call.levels[j], call.setBy, call.run);
        assert SlotOf(after[|rows| + i]) != SlotOf(after[|rows| + j]);
      }
    }
    if DistinctKinds(call.levels, n) {
      forall i, j | 0 <= i < j < |after| && after[i].active && after[j].active
        ensures SlotOf(after[i]) != SlotOf(after[j])
      {
        ActiveDiffer(rows, call, i, j);
      }
    }
  }

  lemma ActiveDiffer(rows: seq<Row>, call: Call, i: nat, j: nat)
    requires OneActive(rows) && DistinctKinds(call.levels, |call.levels|)
    requires var after := SetUpTo(rows, call, |call.levels|, false);
             i < j < |after| && after[i].active && after[j].active
    ensures var after := SetUpTo(rows, call, |call.levels|, false);
            SlotOf(after[i]) != SlotOf(after[j])
  {
    var after := SetUpTo(rows, call, |call.levels|, false);
    UnflushedRows(rows, call, |call.levels|);
    if j >= |rows| {
      var k := j - |rows|;
      assert after[|rows| + k] == NewRow(call.coverage, call.levels[k], call.setBy, call.run);
      if i >= |rows| {
        var h := i - |rows|;
        assert after[|rows| + h] == NewRow(call.coverage, call.levels[h], call.setBy, call.run);
      }
    }
  }

  // ---- whole histories of such sessions

  function AfterUnflushed(calls: seq<Call>): seq<Row> {
    if calls == [] then []
    else
      var before := AfterUnflushed(calls[..|calls| - 1]);
      var after := SetLevels(before, calls[|calls| - 1], false);
      if after.Some? then after.value else before
  }

  function ActiveCount(rows: seq<Row>, slot: (CoverageId, LevelKind)): nat {
    if rows == [] then 0
    else
      ActiveCount(rows[..|rows| - 1], slot)
      + if rows[|rows| - 1].active && SlotOf(rows[|rows| - 1]) == slot then 1 else 0
  }

  // How often the first n levels of the call write the slot.
  function WriteCount(call: Call, n: nat, slot: (CoverageId, LevelKind)): nat
    requires n <= |call.levels|
  {
    if n == 0 then 0
    else WriteCount(call, n - 1, slot) + if (call.coverage, call.levels[n - 1].kind) == slot then 1 else 0
  }

  // How often the last accepted call that writes the slot writes it.
  function LastWriteCount(calls: seq<Call>, slot: (CoverageId, LevelKind)): nat {
    if calls == [] then 0
    else
      var call := calls[|calls| - 1];
      var n := if AllInsertable(call.levels) then WriteCount(call, |call.levels|, slot) else 0;
      if n > 0 then n else LastWriteCount(calls[..|calls| - 1], slot)
  }

  lemma {:induction false} RetiredCount(
    rows: seq<Row>, seen: nat, c: CoverageId, kind: LevelKind, now: Time, slot: (CoverageId, LevelKind))
    requires seen <= |rows|
    ensures ActiveCount(Retire(rows, seen, c, kind, now)[..seen], slot) == if slot == (c, kind) then 0
        else ActiveCount(rows[..seen], slot)
    decreases seen
  {
    if seen > 0 {
      var after := Retire(rows, seen, c, kind, now);
      var init := Retire(rows, seen - 1, c, kind, now);
      RetiredCount(rows, seen - 1, c, kind, now, slot);
      assert after[..seen][..seen - 1] == init[..seen - 1];
      assert rows[..seen][..seen - 1] == rows[..seen - 1];
    }
  }

  // One write: the first m rows lose the slot it writes, the others keep theirs, and the
  // new row adds one to it.
  lemma OneWriteCounts(
    rows: seq<Row>, m: nat, c: CoverageId, l: Level, row: Row, now: Time, slot: (CoverageId, LevelKind))
    requires m <= |rows| && row.active && SlotOf(row) == (c, l.kind)
    ensures var after := Retire(rows, m, c, l.kind, now) + [row];
            var written := if slot == (c, l.kind) then 1 else 0;
            && ActiveCount(after[..m], slot) == (if written == 1 then 0 else ActiveCount(rows[..m], slot))
            && ActiveCount(after, slot) - ActiveCount(after[..m], slot)
               == ActiveCount(rows, slot) - ActiveCount(rows[..m], slot) + written
  {
    var retired := Retire(rows, m, c, l.kind, now);
    RetiredCount(rows, m, c, l.kind, now, slot);
    SameTailCount(rows, retired, m, slot);
    assert (retired + [row])[..m] == retired[..m];
    assert (retired + [row])[..|rows|] == retired;
  }

  // The old rows keep their count unless the call writes the slot; every write adds one.
  lemma {:induction false} UnflushedCounts(rows: seq<Row>, call: Call, n: nat, slot: (CoverageId, LevelKind))
    requires n <= |call.levels|
    ensures var after := SetUpTo(rows, call, n, false);
            && ActiveCount(after[..|rows|], slot)
                == (if WriteCount(call, n, slot) > 0 then 0 else ActiveCount(rows, slot))
            && ActiveCount(after, slot) == ActiveCount(after[..|rows|], slot) + WriteCount(call, n, slot)
    decreases n
  {
    if n == 0 {
      assert rows[..|rows|] == rows;
    } else {
      var l := call.levels[n - 1];
      UnflushedCounts(rows, call, n - 1, slot);
      OneWriteCounts(SetUpTo(rows, call, n - 1, false), |rows|, call.coverage, l,
                     NewRow(call.coverage, l, call.setBy, call.run), call.now, slot);
    }
  }

  lemma {:induction false} CountSplits(rows: seq<Row>, more: seq<Row>, slot: (CoverageId, LevelKind))
    ensures ActiveCount(rows + more, slot) == ActiveCount(rows, slot) + ActiveCount(more, slot)
    decreases |more|
  {
    if more == [] {
      assert rows + more == rows;
    } else {
      var m := |more| - 1;
      CountSplits(rows, more[..m], slot);
      assert (rows + more)[..|rows| + m] == rows + more[..m];
    }
  }

  // Two tables that agree from position n on differ in count as their heads do.
  lemma SameTailCount(rows: seq<Row>, after: seq<Row>, n: nat, slot: (CoverageId, LevelKind))
    requires n <= |rows| == |after| && after[n..] == rows[n..]
    ensures ActiveCount(after, slot) - ActiveCount(after[..n], slot)
         == ActiveCount(rows, slot) - ActiveCount(rows[..n], slot)
  {
    assert rows == rows[..n] + rows[n..] && after == after[..n] + after[n..];
    CountSplits(rows[..n], rows[n..], slot);
    CountSplits(after[..n], after[n..], slot);
  }

  // After any sequence of unflushed calls a slot has as many active rows as the last
  // accepted call that writes it wrote to it.
  lemma {:induction false} UnflushedHistory(calls: seq<Call>, slot: (CoverageId, LevelKind))
    ensures ActiveCount(AfterUnflushed(calls), slot) == LastWriteCount(calls, slot)
  {
    if calls != [] {
      var init := calls[..|calls| - 1];
      var call := calls[|calls| - 1];
      UnflushedHistory(init, slot);
      if AllInsertable(call.levels) {
        UnflushedCounts(AfterUnflushed(init), call, |call.levels|, slot);
      }
    }
  }

  lemma {:induction false} CountsTwo(rows: seq<Row>, slot: (CoverageId, LevelKind)) returns (i: nat, j: nat)
    requires ActiveCount(rows, slot) >= 2
    ensures i < j < |rows| && rows[i].active && rows[j].active && SlotOf(rows[i]) == SlotOf(rows[j]) == slot
  {
    var n := |rows| - 1;
    if rows[n].active && SlotOf(rows[n]) == slot {
      i := CountsOne(rows[..n], slot);
      j := n;
    } else {
      i, j := CountsTwo(rows[..n], slot);
    }
  }

  lemma {:induction false} CountsOne(rows: seq<Row>, slot: (CoverageId, LevelKind)) returns (i: nat)
    requires ActiveCount(rows, slot) >= 1
    ensures i < |rows| && rows[i].active && SlotOf(rows[i]) == slot
  {
    var n := |rows| - 1;
    if rows[n].active && SlotOf(rows[n]) == slot {
      return n;
    }
    i := CountsOne(rows[..n], slot);
  }

  lemma {:induction false} CountsOf(rows: seq<Row>, i: nat)
    requires i < |rows| && rows[i].active
    ensures ActiveCount(rows, SlotOf(rows[i])) >= 1
  {
    if i < |rows| - 1 {
      CountsOf(rows[..|rows| - 1], i);
    }
  }

  lemma {:induction false} CountsBoth(rows: seq<Row>, i: nat, j: nat)
    requires i < j < |rows| && rows[i].active && rows[j].active && SlotOf(rows[i]) == SlotOf(rows[j])
    ensures ActiveCount(rows, SlotOf(rows[j])) >= 2
  {
    var n := |rows| - 1;
    if j < n {
      CountsBoth(rows[..n], i, j);
    } else {
      CountsOf(rows[..n], i);
    }
  }

  // So such a history keeps one active row per coverage and kind if and only if, for each
  // of them, the last accepted call that wrote it wrote it once. A repeat in an earlier
  // call does no lasting harm.
  lemma UnflushedHistoryKeepsOneIff(calls: seq<Call>)
    ensures OneActive(AfterUnflushed(calls)) <==> forall slot :: LastWriteCount(calls, slot) <= 1
  {
    var rows := AfterUnflushed(calls);
    forall slot: (CoverageId, LevelKind) | OneActive(rows) ensures LastWriteCount(calls, slot) <= 1 {
      UnflushedHistory(calls, slot);
      if ActiveCount(rows, slot) >= 2 {
        var i, j := CountsTwo(rows, slot);
      }
    }
    if !OneActive(rows) {
      var i, j :| 0 <= i < j < |rows| && rows[i].active && rows[j].active && SlotOf(rows[i]) == SlotOf(rows[j]);
      UnflushedHistory(calls, SlotOf(rows[j]));
      CountsBoth(rows, i, j);
      assert LastWriteCount(calls, SlotOf(rows[j])) > 1;
    }
  }
}
