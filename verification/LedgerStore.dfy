// The prediction ledger's operations on a session (core/db/repo/predictions.py).
module LedgerStore {
  import opened Domain
  import opened Store
  import opened P = Predictions

  // Insert the entries one by one; a key that is already there is skipped.
  method RegisterFromStage(s: Session, o: Origin, entries: seq<PredictionIn>) returns (ok: bool)
    modifies s
    ensures ok <==> Register(old(s.ledger), o, entries).Some?
    ensures ok ==> s.View() == old(s.View()).(ledger := Register(old(s.ledger), o, entries).value)
  {
    for i := 0 to |entries|
      invariant s.View() == old(s.View()).(ledger := s.ledger)
      invariant Register(old(s.ledger), o, entries[..i]) == Some(s.ledger)
    {
      var e := entries[i];
      assert entries[..i + 1][..i] == entries[..i];
      if !Insertable(e) {
        RegisterStops(old(s.ledger), o, entries, i + 1);
        return false;
      }
      if !HasKey(s.ledger, KeyOf(o.run, o.stage, e)) {
        s.ledger := s.ledger + [NewRow(o, e)];
      }
    }
    assert entries[..|entries|] == entries;
    return true;
  }

  // An insert that raises stops the whole registration.
  lemma {:induction false} RegisterStops(ledger: seq<Prediction>, o: Origin, entries: seq<PredictionIn>, n: nat)
    requires n <= |entries| && Register(ledger, o, entries[..n]).None?
    ensures Register(ledger, o, entries).None?
    decreases |entries| - n
  {
    if n == |entries| {
      assert entries[..n] == entries;
    } else {
      assert entries[..n + 1][..n] == entries[..n];
      RegisterStops(ledger, o, entries, n + 1);
    }
  }

  // False: a protected column is named, or there is no such row.
  method UpdatePrediction(s: Session, id: nat, fields: seq<(Column, Value)>) returns (ok: bool)
    modifies s
    ensures ok <==> Update(old(s.ledger), id, fields).Some?
    ensures ok ==> s.View() == old(s.View()).(ledger := Update(old(s.ledger), id, fields).value)
    ensures !ok ==> s.View() == old(s.View())
  {
    for i := 0 to |fields|
      invariant forall j | 0 <= j < i :: fields[j].0 in MUTABLE
    {
      if fields[i].0 !in MUTABLE {
        assert fields[i] in fields;
        return false;
      }
    }
    if id >= |s.ledger| {
      return false;
    }
    for i := 0 to |fields|
      invariant s.View() == old(s.View()).(ledger := s.ledger) && id < |old(s.ledger)|
      invariant s.ledger == old(s.ledger)[id := SetAll(old(s.ledger)[id], fields[..i])]
    {
      assert fields[..i + 1][..i] == fields[..i];
      s.ledger := s.ledger[id := SetAttr(s.ledger[id], fields[i].0, fields[i].1)];
    }
    assert fields[..|fields|] == fields;
    return true;
  }

  method Supersede(s: Session, id: nat, winner: nat, run: RunId) returns (ok: bool)
    modifies s
    ensures ok <==> Do(old(s.ledger), Superseding(id, winner, run)).Some?
    ensures ok ==> s.View() == old(s.View()).(ledger := Do(old(s.ledger), Superseding(id, winner, run)).value)
    ensures !ok ==> s.View() == old(s.View())
  {
    if id >= |s.ledger| {
      return false;
    }
    var p := s.ledger[id];
    p := SetAttr(p, Status, Text("superseded"));
    p := SetAttr(p, SupersededBy, Ref(winner));
    p := SetAttr(p, SupersededRun, Ref(run));
    SupersedingSets(s.ledger[id], winner, run);
    s.ledger := s.ledger[id := p];
    return true;
  }

  lemma SetTwo(p: Prediction, f: (Column, Value), g: (Column, Value))
    ensures SetAll(p, [f, g]) == SetAttr(SetAttr(p, f.0, f.1), g.0, g.1)
  {
    assert [f, g][..1] == [f] && [f][..0] == [];
    assert SetAll(p, [f]) == SetAttr(SetAll(p, []), f.0, f.1);
  }

  lemma SupersedingSets(p: Prediction, winner: nat, run: RunId)
    ensures SetAll(p, SupersedeFields(winner, run))
         == SetAttr(SetAttr(SetAttr(p, Status, Text("superseded")), SupersededBy, Ref(winner)), SupersededRun, Ref(run))
    ensures forall f | f in SupersedeFields(winner, run) :: f.0 in MUTABLE
  {
    var fields := SupersedeFields(winner, run);
    SetTwo(p, fields[0], fields[1]);
    assert fields[..2] == [fields[0], fields[1]];
  }

  // One setattr after another.
  method ScoreRow(row: Prediction, status: string, at: Time, price: Value, ret: Value, err: Value, notes: Value)
    returns (p: Prediction)
    ensures p == Scored(row, status, at, price, ret, err, notes)
  {
    p := SetAttr(row, Status, Text(status));
    p := SetAttr(p, ScoredAt, Num(at));
    if !price.Null? {
      p := SetAttr(p, RealizedPrice, price);
    }
    if !ret.Null? {
      p := SetAttr(p, RealizedReturn, ret);
    }
    if !err.Null? {
      p := SetAttr(p, ErrorPct, err);
    }
    if !notes.Null? {
      p := SetAttr(p, OutcomeNotes, notes);
    }
  }

  method Score(
    s: Session, id: nat, status: string, price: Value, ret: Value, err: Value, notes: Value)
    returns (ok: bool)
    modifies s
    ensures ok <==> id < |old(s.ledger)|
    ensures s.View() ==
              if ok then old(s.View()).(ledger := old(s.ledger)[id := Scored(old(s.ledger)[id], status, s.now, price,
                  ret, err, notes)])
              else old(s.View())
  {
    if id >= |s.ledger| {
      return false;
    }
    var p := ScoreRow(s.ledger[id], status, s.now, price, ret, err, notes);
    s.ledger := s.ledger[id := p];
    return true;
  }

  // The row once its status and time, and of the outcome what was given, are set.
  function Scored(
    p: Prediction, status: string, at: Time, price: Value, ret: Value, err: Value, notes: Value): Prediction
  {
    var p1 := SetAttr(SetAttr(p, Status, Text(status)), ScoredAt, Num(at));
    var p2 := if price.Null? then p1 else SetAttr(p1, RealizedPrice, price);
    var p3 := if ret.Null? then p2 else SetAttr(p2, RealizedReturn, ret);
    var p4 := if err.Null? then p3 else SetAttr(p3, ErrorPct, err);
    if notes.Null? then p4 else SetAttr(p4, OutcomeNotes, notes)
  }

  lemma ScoringDone(
    ledger: seq<Prediction>, id: nat, status: string, at: Time, price: Value, ret: Value, err: Value, notes: Value)
    requires id < |ledger|
    ensures Do(ledger, Scoring(id, status, at, price, ret, err, notes))
         == Some(ledger[id := Scored(ledger[id], status, at, price, ret, err, notes)])
  {
    var fields := ScoreFields(status, at, price, ret, err, notes);
    assert Do(ledger, Scoring(id, status, at, price, ret, err, notes)) == Update(ledger, id, fields);
    ScoringTouches(status, at, price, ret, err, notes);
    UpdateAccepted(ledger, id, fields);
    ScoringSets(ledger[id], status, at, price, ret, err, notes);
  }

  lemma UpdateAccepted(ledger: seq<Prediction>, id: nat, fields: seq<(Column, Value)>)
    requires id < |ledger| && forall f | f in fields :: f.0 in MUTABLE
    ensures Update(ledger, id, fields) == Some(ledger[id := SetAll(ledger[id], fields)])
  {
  }

  lemma SetAllAppends(p: Prediction, fields: seq<(Column, Value)>, c: Column, v: Value)
    ensures SetAll(p, fields + WhenGiven(c, v)) == if v.Null? then SetAll(p, fields)
        else SetAttr(SetAll(p, fields), c, v)
  {
    if v.Null? {
      assert fields + WhenGiven(c, v) == fields;
    } else {
      assert (fields + WhenGiven(c, v))[..|fields|] == fields;
    }
  }

  lemma ScoringTouches(status: string, at: Time, price: Value, ret: Value, err: Value, notes: Value)
    ensures forall f | f in ScoreFields(status, at, price, ret, err, notes) :: f.0 in MUTABLE
  {
  }

  // Scoring sets the status and the time, and of the outcome exactly what was given.
  lemma ScoringSets(p: Prediction, status: string, at: Time, price: Value, ret: Value, err: Value, notes: Value)
    ensures SetAll(p, ScoreFields(status, at, price, ret, err, notes)) == Scored(p, status, at, price, ret, err, notes)
  {
    var f1 := [(Status, Text(status)), (ScoredAt, Num(at))];
    SetTwo(p, f1[0], f1[1]);
    SetAllAppends(p, f1, RealizedPrice, price);
    var f2 := f1 + WhenGiven(RealizedPrice, price);
    SetAllAppends(p, f2, RealizedReturn, ret);
    var f3 := f2 + WhenGiven(RealizedReturn, ret);
    SetAllAppends(p, f3, ErrorPct, err);
    SetAllAppends(p, f3 + WhenGiven(ErrorPct, err), OutcomeNotes, notes);
  }

  // The newest target row of the coverage so far.
  ghost predicate NewestUpTo(ledger: seq<Prediction>, c: CoverageId, best: Option<nat>, n: nat)
    requires n <= |ledger|
  {
    && (best.None? ==> forall i | 0 <= i < n :: !IsTarget(ledger[i], c))
    && (best.Some? ==>
          && best.value < n && IsTarget(ledger[best.value], c)
          && forall i | 0 <= i < n && IsTarget(ledger[i], c) ::
              ledger[i].createdAt.num <= ledger[best.value].createdAt.num)
  }

  method LastTargetPrice(ledger: seq<Prediction>, c: CoverageId) returns (tp: Option<real>)
    ensures IsLastTarget(ledger, c, tp)
  {
    var best: Option<nat> := None;
    for i := 0 to |ledger|
      invariant NewestUpTo(ledger, c, best, i)
    {
      if IsTarget(ledger[i], c) && (best.None? || ledger[i].createdAt.num > ledger[best.value].createdAt.num) {
        best := Some(i);
      }
    }
    if best.None? {
      return None;
    }
    var row := ledger[best.value];
    tp := if row.value.Num? then Some(row.value.num) else None;
  }
}
