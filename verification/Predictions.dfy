// The immutable prediction ledger (core/db/repo/predictions.py).
//
// A row's id is its position in the ledger. SHA-256 of the key text is abstracted to the
// tuple of the fields that the text is built from.
module Predictions {
  import opened Domain

  datatype Key = Key(run: RunId, stage: nat, kind: PredictionKind, scenario: string, value: Option<real>, horizon: int)

  datatype Column =
    | Coverage | RunRef | StageRef | HouseKey | Kind | Price | Currency | StanceText
    | ScenarioLabel | ScenarioProb | Horizon | Confidence | Direction | PinnedPrice
    | IdempotencyKey | CreatedAt
    | Status | SupersededBy | SupersededRun | ScoredAt
    | RealizedPrice | RealizedReturn | ErrorPct | OutcomeNotes

  datatype Value =
    | Null | Num(num: real) | Text(text: string) | Ref(id: nat) | Day(day: int)
    | OfKind(kind: PredictionKind) | OfKey(key: Key)

  datatype Prediction = Prediction(
    coverage: Value, run: Value, stage: Value, house: Value, kind: Value, value: Value,
    currency: Value, stance: Value, scenarioLabel: Value, scenarioProb: Value,
    horizon: Value, confidence: Value, direction: Value, pinnedPrice: Value,
    key: Value, createdAt: Value,
    status: Value, supersededBy: Value, supersededRun: Value, scoredAt: Value,
    realizedPrice: Value, realizedReturn: Value, errorPct: Value, outcomeNotes: Value)

  const MUTABLE: set<Column> := {
    Status, SupersededBy, SupersededRun, ScoredAt, RealizedPrice, RealizedReturn, ErrorPct, OutcomeNotes}

  function Get(p: Prediction, c: Column): Value {
    match c
    case Coverage => p.coverage
    case RunRef => p.run
    case StageRef => p.stage
    case HouseKey => p.house
    case Kind => p.kind
    case Price => p.value
    case Currency => p.currency
    case StanceText => p.stance
    case ScenarioLabel => p.scenarioLabel
    case ScenarioProb => p.scenarioProb
    case Horizon => p.horizon
    case Confidence => p.confidence
    case Direction => p.direction
    case PinnedPrice => p.pinnedPrice
    case IdempotencyKey => p.key
    case CreatedAt => p.createdAt
    case Status => p.status
    case SupersededBy => p.supersededBy
    case SupersededRun => p.supersededRun
    case ScoredAt => p.scoredAt
    case RealizedPrice => p.realizedPrice
    case RealizedReturn => p.realizedReturn
    case ErrorPct => p.errorPct
    case OutcomeNotes => p.outcomeNotes
  }

  // setattr: writes whichever column it is told to.
  function SetAttr(p: Prediction, c: Column, v: Value): (q: Prediction)
    ensures Get(q, c) == v
    ensures forall d | d != c :: Get(q, d) == Get(p, d)
  {
    match c
    case Coverage => p.(coverage := v)
    case RunRef => p.(run := v)
    case StageRef => p.(stage := v)
    case HouseKey => p.(house := v)
    case Kind => p.(kind := v)
    case Price => p.(value := v)
    case Currency => p.(currency := v)
    case StanceText => p.(stance := v)
    case ScenarioLabel => p.(scenarioLabel := v)
    case ScenarioProb => p.(scenarioProb := v)
    case Horizon => p.(horizon := v)
    case Confidence => p.(confidence := v)
    case Direction => p.(direction := v)
    case PinnedPrice => p.(pinnedPrice := v)
    case IdempotencyKey => p.(key := v)
    case CreatedAt => p.(createdAt := v)
    case Status => p.(status := v)
    case SupersededBy => p.(supersededBy := v)
    case SupersededRun => p.(supersededRun := v)
    case ScoredAt => p.(scoredAt := v)
    case RealizedPrice => p.(realizedPrice := v)
    case RealizedReturn => p.(realizedReturn := v)
    case ErrorPct => p.(errorPct := v)
    case OutcomeNotes => p.(outcomeNotes := v)
  }

  // ---- registration

  function NumOr(v: Option<real>): Value {
    if v.Some? then Num(v.value) else Null
  }

  function TextOr(v: Option<string>): Value {
    if v.Some? then Text(v.value) else Null
  }

  predicate InUnit(v: Option<real>) {
    v.Some? ==> 0.0 <= v.value <= 1.0
  }

  // The date parses and the table's check constraints hold.
  predicate Insertable(e: PredictionIn) {
    && e.horizon.Some?
    && !e.kind.Blank? && !e.kind.Unlisted?
    && (e.kind.TargetPrice? ==> e.value.Some? && e.currency.Some?)
    && InUnit(e.scenarioProb) && InUnit(e.confidence)
  }

  function KeyOf(run: RunId, stage: nat, e: PredictionIn): Key
    requires e.horizon.Some?
  {
    Key(run, stage, e.kind,
        if e.scenarioLabel.Some? then e.scenarioLabel.value else "",
        if e.value.Some? && e.value.value != 0.0 then e.value else None,
        e.horizon.value)
  }

  datatype Origin = Origin(coverage: CoverageId, run: RunId, stage: nat, house: House, at: Time)

  function NewRow(o: Origin, e: PredictionIn): Prediction
    requires e.horizon.Some?
  {
    Prediction(
      Ref(o.coverage), Ref(o.run), Ref(o.stage), Text(o.house), OfKind(e.kind), NumOr(e.value),
      TextOr(e.currency), TextOr(e.stance), TextOr(e.scenarioLabel), NumOr(e.scenarioProb),
      Day(e.horizon.value), NumOr(e.confidence), TextOr(e.direction), NumOr(e.pinnedPrice),
      OfKey(KeyOf(o.run, o.stage, e)), Num(o.at),
      Text("open"), Null, Null, Null, Null, Null, Null, Null)
  }

  predicate HasKey(ledger: seq<Prediction>, k: Key) {
    exists i :: 0 <= i < |ledger| && ledger[i].key == OfKey(k)
  }

  // INSERT ... ON CONFLICT DO NOTHING. None: a constraint other than the key is violated.
  function Insert(ledger: seq<Prediction>, o: Origin, e: PredictionIn): Option<seq<Prediction>> {
    if !Insertable(e) then None
    else if HasKey(ledger, KeyOf(o.run, o.stage, e)) then Some(ledger)
    else Some(ledger + [NewRow(o, e)])
  }

  function Register(ledger: seq<Prediction>, o: Origin, entries: seq<PredictionIn>): Option<seq<Prediction>>
    decreases |entries|
  {
    if entries == [] then Some(ledger)
    else
      var before := Register(ledger, o, entries[..|entries| - 1]);
      if before.None? then None else Insert(before.value, o, entries[|entries| - 1])
  }

  // The entries of a result that name a kind.
  function Entries(ps: seq<PredictionIn>): seq<PredictionIn> {
    if ps == [] then []
    else
      var init := Entries(ps[..|ps| - 1]);
      if ps[|ps| - 1].kind.Blank? then init else init + [ps[|ps| - 1]]
  }

  // ---- what the ledger keeps

  ghost predicate KeysUnique(ledger: seq<Prediction>) {
    forall i, j | 0 <= i < j < |ledger| :: ledger[i].key != ledger[j].key
  }

  // No row is lost and no protected column moves.
  ghost predicate Preserves(before: seq<Prediction>, after: seq<Prediction>) {
    && |before| <= |after|
    && forall i, c | 0 <= i < |before| && c !in MUTABLE :: Get(after[i], c) == Get(before[i], c)
  }

  lemma PreservesSelf(ledger: seq<Prediction>)
    ensures Preserves(ledger, ledger)
  {
  }

  lemma PreservesKeys(before: seq<Prediction>, after: seq<Prediction>, k: Key)
    requires Preserves(before, after) && HasKey(before, k)
    ensures HasKey(after, k)
  {
    var i :| 0 <= i < |before| && before[i].key == OfKey(k);
    assert IdempotencyKey !in MUTABLE;
    assert Get(after[i], IdempotencyKey) == Get(before[i], IdempotencyKey);
  }

  // What registering adds: the old ledger is a prefix, keys stay unique, every entry's key
  // is present, and every new row carries this stage's identity.
  lemma {:induction false} RegisterAppends(ledger: seq<Prediction>, o: Origin, entries: seq<PredictionIn>)
    requires Register(ledger, o, entries).Some?
    ensures var after := Register(ledger, o, entries).value;
            && ledger <= after
            && (KeysUnique(ledger) ==> KeysUnique(after))
            && (forall e | e in entries :: Insertable(e) && HasKey(after, KeyOf(o.run, o.stage, e)))
            && (forall i | |ledger| <= i < |after| ::
                  after[i].run == Ref(o.run) && after[i].stage == Ref(o.stage) && after[i].coverage == Ref(o.coverage))
  {
    if entries != [] {
      var n := |entries| - 1;
      RegisterAppends(ledger, o, entries[..n]);
      var before := Register(ledger, o, entries[..n]).value;
      var after := Register(ledger, o, entries).value;
      assert before <= after;
      assert Preserves(before, after);
      forall e | e in entries ensures Insertable(e) && HasKey(after, KeyOf(o.run, o.stage, e)) {
        var i :| 0 <= i < |entries| && entries[i] == e;
        if i < n {
          assert e == entries[..n][i];
          assert e in entries[..n];
          PreservesKeys(before, after, KeyOf(o.run, o.stage, e));
        } else if !HasKey(before, KeyOf(o.run, o.stage, e)) {
          assert after[|before|].key == OfKey(KeyOf(o.run, o.stage, e));
        }
      }
    }
  }

  // Registering raises if and only if some entry breaks the table's constraints.
  lemma {:induction false} RegisterRaisesIff(ledger: seq<Prediction>, o: Origin, entries: seq<PredictionIn>)
    ensures Register(ledger, o, entries).None? <==> exists e :: e in entries && !Insertable(e)
  {
    if entries != [] {
      var n := |entries| - 1;
      RegisterRaisesIff(ledger, o, entries[..n]);
      assert entries == entries[..n] + [entries[n]];
    }
  }

  // Entries whose keys are all present leave the ledger alone.
  lemma {:induction false} KnownEntriesAddNothing(ledger: seq<Prediction>, o: Origin, entries: seq<PredictionIn>)
    requires forall e | e in entries :: Insertable(e) && HasKey(ledger, KeyOf(o.run, o.stage, e))
    ensures Register(ledger, o, entries) == Some(ledger)
  {
    if entries != [] {
      var n := |entries| - 1;
      assert forall e | e in entries[..n] :: e in entries;
      KnownEntriesAddNothing(ledger, o, entries[..n]);
      assert entries[n] in entries;
    }
  }

  // Registering a stage's entries any number of times equals registering them once, at
  // whatever later time and however many rows were added or scored in between.
  lemma ReregisterAddsNothing(
    ledger: seq<Prediction>, o: Origin, later: Time, entries: seq<PredictionIn>, now: seq<Prediction>)
    requires Register(ledger, o, entries).Some?
    requires Preserves(Register(ledger, o, entries).value, now)
    ensures Register(now, o.(at := later), entries) == Some(now)
  {
    RegisterAppends(ledger, o, entries);
    forall e | e in entries ensures Insertable(e) && HasKey(now, KeyOf(o.run, o.stage, e)) {
      PreservesKeys(Register(ledger, o, entries).value, now, KeyOf(o.run, o.stage, e));
    }
    KnownEntriesAddNothing(now, o.(at := later), entries);
  }

  // ---- edits

  // One setattr per named column, in any order.
  function SetAll(p: Prediction, fields: seq<(Column, Value)>): Prediction {
    if fields == [] then p
    else SetAttr(SetAll(p, fields[..|fields| - 1]), fields[|fields| - 1].0, fields[|fields| - 1].1)
  }

  lemma {:induction false} SetAllTouchesOnlyNamed(p: Prediction, fields: seq<(Column, Value)>, c: Column)
    requires forall f | f in fields :: f.0 != c
    ensures Get(SetAll(p, fields), c) == Get(p, c)
  {
    if fields != [] {
      var n := |fields| - 1;
      assert forall f | f in fields[..n] :: f in fields;
      SetAllTouchesOnlyNamed(p, fields[..n], c);
      assert fields[n] in fields;
    }
  }

  // None: a protected column is named (ImmutableColumnError) or the row does not exist.
  function Update(ledger: seq<Prediction>, id: nat, fields: seq<(Column, Value)>): Option<seq<Prediction>> {
    if (exists f :: f in fields && f.0 !in MUTABLE) || id >= |ledger| then None
    else Some(ledger[id := SetAll(ledger[id], fields)])
  }

  function SupersedeFields(winner: nat, run: RunId): seq<(Column, Value)> {
    [(Status, Text("superseded")), (SupersededBy, Ref(winner)), (SupersededRun, Ref(run))]
  }

  function WhenGiven(c: Column, v: Value): seq<(Column, Value)> {
    if v.Null? then [] else [(c, v)]
  }

  function ScoreFields(
    status: string, at: Time, price: Value, ret: Value, err: Value, notes: Value): seq<(Column, Value)>
  {
    [(Status, Text(status)), (ScoredAt, Num(at))]
    + WhenGiven(RealizedPrice, price) + WhenGiven(RealizedReturn, ret)
    + WhenGiven(ErrorPct, err) + WhenGiven(OutcomeNotes, notes)
  }

  lemma UpdatePreserves(ledger: seq<Prediction>, id: nat, fields: seq<(Column, Value)>)
    requires Update(ledger, id, fields).Some?
    ensures Preserves(ledger, Update(ledger, id, fields).value)
    ensures KeysUnique(ledger) ==> KeysUnique(Update(ledger, id, fields).value)
  {
    var after := Update(ledger, id, fields).value;
    forall i, c | 0 <= i < |ledger| && c !in MUTABLE ensures Get(after[i], c) == Get(ledger[i], c) {
      SetAllTouchesOnlyNamed(ledger[id], fields, c);
    }
    forall i | 0 <= i < |ledger| ensures after[i].key == ledger[i].key {
      assert IdempotencyKey !in MUTABLE;
      assert Get(after[i], IdempotencyKey) == Get(ledger[i], IdempotencyKey);
    }
  }

  // ---- whole histories

  datatype Op =
    | Registering(o: Origin, entries: seq<PredictionIn>)
    | Updating(id: nat, fields: seq<(Column, Value)>)
    | Superseding(id: nat, winner: nat, run: RunId)
    | Scoring(id: nat, status: string, at: Time, price: Value, ret: Value, err: Value, notes: Value)

  function Do(ledger: seq<Prediction>, op: Op): Option<seq<Prediction>> {
    match op
    case Registering(o, entries) => Register(ledger, o, entries)
    case Updating(id, fields) => Update(ledger, id, fields)
    case Superseding(id, winner, run) => Update(ledger, id, SupersedeFields(winner, run))
    case Scoring(id, status, at, price, ret, err, notes) => Update(ledger, id,
        ScoreFields(status, at, price, ret, err, notes))
  }

  // A call that raises leaves the ledger as it was.
  function DoAll(ledger: seq<Prediction>, ops: seq<Op>): seq<Prediction> {
    if ops == [] then ledger
    else
      var before := DoAll(ledger, ops[..|ops| - 1]);
      var next := Do(before, ops[|ops| - 1]);
      if next.Some? then next.value else before
  }

  // Over any sequence of calls no row disappears, no protected column changes and keys
  // stay unique.
  lemma {:induction false} LedgerIsImmutable(ledger: seq<Prediction>, ops: seq<Op>)
    ensures Preserves(ledger, DoAll(ledger, ops))
    ensures KeysUnique(ledger) ==> KeysUnique(DoAll(ledger, ops))
  {
    if ops != [] {
      LedgerIsImmutable(ledger, ops[..|ops| - 1]);
      var before := DoAll(ledger, ops[..|ops| - 1]);
      var op := ops[|ops| - 1];
      if Do(before, op).Some? {
        DoPreserves(before, op);
      }
    }
  }

  lemma DoPreserves(ledger: seq<Prediction>, op: Op)
    requires Do(ledger, op).Some?
    ensures Preserves(ledger, Do(ledger, op).value)
    ensures KeysUnique(ledger) ==> KeysUnique(Do(ledger, op).value)
  {
    match op
    case Registering(o, entries) => RegisterAppends(ledger, o, entries);
    case Updating(id, fields) => UpdatePreserves(ledger, id, fields);
    case Superseding(id, winner, run) => UpdatePreserves(ledger, id, SupersedeFields(winner, run));
    case Scoring(id, status, at, price, ret, err, notes) =>
      UpdatePreserves(ledger, id, ScoreFields(status, at, price, ret, err, notes));
  }

  // ---- the last registered target price

  predicate IsTarget(p: Prediction, c: CoverageId) {
    p.coverage == Ref(c) && p.kind == OfKind(TargetPrice) && p.createdAt.Num?
  }

  // Some newest target row of the coverage carries this price; rows created at the same
  // instant may be returned in either order. None only when there is no such row.
  ghost predicate IsLastTarget(ledger: seq<Prediction>, c: CoverageId, tp: Option<real>) {
    if exists i :: 0 <= i < |ledger| && IsTarget(ledger[i], c) then
      exists i :: 0 <= i < |ledger| && IsTarget(ledger[i], c)
                  && tp == (if ledger[i].value.Num? then Some(ledger[i].value.num) else None)
                  && forall j | 0 <= j < |ledger| && IsTarget(ledger[j], c) ::
                       ledger[j].createdAt.num <= ledger[i].createdAt.num
    else tp.None?
  }
}
