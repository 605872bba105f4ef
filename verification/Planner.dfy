// Stage-graph construction (core/orchestrator/planner.py, core/orchestrator/rotation.py).
module Planner {
  import opened Domain

  datatype StageIn = StageIn(
    seqNo: nat, role: Role, house: Option<House>, substrate: Substrate, maxAttempts: int, dependsOn: Option<nat>)

  datatype Args = Args(
    lead: Option<House>,
    contributors: seq<House>,
    verifyCount: int,
    includeDataChecker: bool,
    monitorHouse: Option<House>,
    metaHouses: set<House>,
    maxAttempts: int)

  // ---- contributor order: no last-used times are ever passed, so it is the key order

  predicate Leq(a: House, b: House) {
    a == [] || (b != [] && (a[0] < b[0] || (a[0] == b[0] && Leq(a[1..], b[1..]))))
  }

  lemma {:induction false} LeqTotal(a: House, b: House)
    ensures Leq(a, b) || Leq(b, a)
  {
    if a != [] && b != [] && a[0] == b[0] {
      LeqTotal(a[1..], b[1..]);
    }
  }

  function Place(h: House, sorted: seq<House>): seq<House> {
    if sorted == [] then [h]
    else if Leq(h, sorted[0]) then [h] + sorted
    else [sorted[0]] + Place(h, sorted[1..])
  }

  function Ordered(hs: seq<House>): seq<House> {
    if hs == [] then [] else Place(hs[0], Ordered(hs[1..]))
  }

  ghost predicate Sorted(hs: seq<House>) {
    forall i | 0 <= i < |hs| - 1 :: Leq(hs[i], hs[i + 1])
  }

  lemma {:induction false} PlaceSorts(h: House, sorted: seq<House>)
    requires Sorted(sorted)
    ensures Sorted(Place(h, sorted))
    ensures Place(h, sorted)[0] == h || (sorted != [] && Place(h, sorted)[0] == sorted[0])
  {
    if sorted != [] && !Leq(h, sorted[0]) {
      var rest := sorted[1..];
      assert Sorted(rest) by {
        assert forall i | 0 <= i < |rest| :: rest[i] == sorted[i + 1];
      }
      PlaceSorts(h, rest);
      LeqTotal(h, sorted[0]);
      ConsSorted(sorted[0], Place(h, rest));
    }
  }

  lemma ConsSorted(h: House, hs: seq<House>)
    requires Sorted(hs) && (hs != [] ==> Leq(h, hs[0]))
    ensures Sorted([h] + hs)
  {
  }

  lemma {:induction false} PlaceKeeps(h: House, sorted: seq<House>)
    ensures multiset(Place(h, sorted)) == multiset(sorted) + multiset{h}
    ensures |Place(h, sorted)| == |sorted| + 1
  {
    if sorted != [] && !Leq(h, sorted[0]) {
      PlaceKeeps(h, sorted[1..]);
      assert sorted == [sorted[0]] + sorted[1..];
    }
  }

  lemma {:induction false} OrderedIsSort(hs: seq<House>)
    ensures Sorted(Ordered(hs)) && multiset(Ordered(hs)) == multiset(hs) && |Ordered(hs)| == |hs|
  {
    if hs != [] {
      OrderedIsSort(hs[1..]);
      PlaceSorts(hs[0], Ordered(hs[1..]));
      PlaceKeeps(hs[0], Ordered(hs[1..]));
      assert hs == [hs[0]] + hs[1..];
    }
  }

  // ordered[: max(n, 0)]
  function Verifiers(contributors: seq<House>, n: int): (v: seq<House>)
  {
    var ordered := Ordered(contributors);
    if n <= 0 then [] else if n >= |ordered| then ordered else ordered[..n]
  }

  // ---- the plan

  predicate Meta(house: Option<House>, args: Args) {
    house.Some? && house.value in args.metaHouses
  }

  datatype Slot = Slot(role: Role, house: Option<House>)

  function VerifierSlots(vs: seq<House>): seq<Slot> {
    seq(|vs|, i requires 0 <= i < |vs| => Slot(Verifier, Some(vs[i])))
  }

  // Who does what, in order, for an initiation.
  function InitiationSlots(args: Args): seq<Slot> {
    var checker := if |args.contributors| > 0 then Some(args.contributors[0]) else args.lead;
    [Slot(Author, args.lead)]
    + VerifierSlots(Verifiers(args.contributors, args.verifyCount))
    + (if args.includeDataChecker then [Slot(DataChecker, checker)] else [])
    + [Slot(Finalizer, args.lead)]
  }

  // Slot i becomes stage i + 1, waiting for stage i.
  function Chained(slots: seq<Slot>, maxAttempts: int): seq<StageIn> {
    seq(|slots|, i requires 0 <= i < |slots| =>
      StageIn(i + 1, slots[i].role, slots[i].house, Harness, maxAttempts, if i == 0 then None else Some(i)))
  }

  // None stands for a raised PlanError, or for a run type the engine cannot plan.
  function Plan(kind: RunType, args: Args): Option<seq<StageIn>> {
    match kind
    case Initiation =>
      var vs := Verifiers(args.contributors, args.verifyCount);
      if Meta(args.lead, args) || (exists v :: v in vs && v in args.metaHouses) then None
      else Some(Chained(InitiationSlots(args), args.maxAttempts))
    case DeepReview =>
      var vs := Verifiers(args.contributors, 1);
      if Meta(args.lead, args) then None
      else if |vs| > 0 && vs[0] in args.metaHouses then None
      else Some(Chained([Slot(Author, args.lead)] + (if |vs| > 0 then [Slot(Verifier, Some(vs[0]))] else []),
          args.maxAttempts))
    case EventAnalysis =>
      if Meta(args.lead, args) then None
      else Some([StageIn(1, Author, args.lead, Harness, args.maxAttempts, None)])
    case MonitorTick =>
      var house := if args.monitorHouse.Some? then args.monitorHouse else args.lead;
      Some([StageIn(1, Monitor, house, Api, args.maxAttempts, None)])
    case PmQuery =>
      if Meta(args.lead, args) then None
      else Some([StageIn(1, Asker, args.lead, Api, args.maxAttempts, None)])
    case LeadReview => None
    case Distillation => None
  }

  // Stages are numbered 1..n; the first waits for nothing and each later one for an
  // earlier stage of the same plan.
  ghost predicate WellFounded(stages: seq<StageIn>) {
    && |stages| >= 1
    && (forall i | 0 <= i < |stages| :: stages[i].seqNo == i + 1)
    && (forall i | 0 <= i < |stages| ::
          if i == 0 then stages[i].dependsOn.None?
          else stages[i].dependsOn.Some? && 1 <= stages[i].dependsOn.value <= i)
  }

  // Every plan is a chain in which each stage waits for the one before it, opens with
  // the only author of an authored run, holds no cross-check, and gives every stage the
  // configured retry budget.
  lemma PlanIsChain(kind: RunType, args: Args)
    requires Plan(kind, args).Some?
    ensures var p := Plan(kind, args).value;
            && WellFounded(p)
            && (forall i | 0 < i < |p| :: p[i].dependsOn == Some(i))
            && (forall i | 0 <= i < |p| :: p[i].maxAttempts == args.maxAttempts)
            && (forall i | 0 <= i < |p| :: p[i].role != CrossCheck)
            && (kind.Initiation? || kind.DeepReview? || kind.EventAnalysis? ==> p[0].role == Author)
            && (forall i | 0 < i < |p| :: p[i].role != Author)
            && (kind.EventAnalysis? ==> |p| == 1)
            && (kind.Initiation? ==> p[0].house == args.lead && p[|p| - 1].role == Finalizer && |p| >= 2)
  {
  }

  lemma SlotLayout(args: Args)
    ensures var vs := Verifiers(args.contributors, args.verifyCount);
            var slots := InitiationSlots(args);
            && |slots| == |vs| + 2 + (if args.includeDataChecker then 1 else 0)
            && slots[0] == Slot(Author, args.lead)
            && (forall i | 0 <= i < |vs| :: slots[i + 1] == Slot(Verifier, Some(vs[i])))
  {
  }

  lemma VerifiersArePrefix(contributors: seq<House>, n: int)
    ensures var vs := Verifiers(contributors, n);
            var ordered := Ordered(contributors);
            && |vs| <= |ordered| && vs + ordered[|vs|..] == ordered
            && (|vs| == n || |vs| == |ordered| || (n < 0 && vs == []))
  {
  }

  // The chosen verifiers are the smallest contributor keys, in key order: they sort the
  // contributors, keep the first n of them and nobody left out precedes the cut.
  lemma VerifiersAreSmallest(contributors: seq<House>, n: int)
    ensures |Verifiers(contributors, n)| <= |Ordered(contributors)|
    ensures var vs := Verifiers(contributors, n);
            var rest := Ordered(contributors)[|vs|..];
            && (|vs| == n || |vs| == |contributors| || (n < 0 && vs == []))
            && Sorted(vs + rest)
            && multiset(vs + rest) == multiset(contributors)
  {
    OrderedIsSort(contributors);
    VerifiersArePrefix(contributors, n);
  }

  // Who is in an initiation: lead, then the verifiers in order, none of them a meta house.
  lemma InitiationRoster(args: Args, i: nat)
    requires Plan(Initiation, args).Some?
    requires i < |Verifiers(args.contributors, args.verifyCount)|
    ensures var vs := Verifiers(args.contributors, args.verifyCount);
            var p := Plan(Initiation, args).value;
            && |p| == |vs| + 2 + (if args.includeDataChecker then 1 else 0)
            && p[i + 1].role == Verifier && p[i + 1].house == Some(vs[i])
            && vs[i] !in args.metaHouses && !Meta(p[0].house, args)
  {
    SlotLayout(args);
    var vs := Verifiers(args.contributors, args.verifyCount);
    assert vs[i] in vs;
    assert InitiationSlots(args)[i + 1] == Slot(Verifier, Some(vs[i]));
  }

  // ---- the loops that build it

  method Checked(vs: seq<House>, args: Args) returns (ok: bool)
    ensures ok <==> !Meta(args.lead, args) && !(exists v :: v in vs && v in args.metaHouses)
  {
    if Meta(args.lead, args) {
      return false;
    }
    for i := 0 to |vs|
      invariant forall j | 0 <= j < i :: vs[j] !in args.metaHouses
    {
      if vs[i] in args.metaHouses {
        return false;
      }
    }
    return true;
  }

  // The initiation branch: append one stage after another, bumping the sequence number.
  method PlanInitiation(args: Args) returns (r: Option<seq<StageIn>>)
    ensures r == Plan(Initiation, args)
  {
    var vs := Verifiers(args.contributors, args.verifyCount);
    var ok := Checked(vs, args);
    if !ok {
      return None;
    }
    var stages := [StageIn(1, Author, args.lead, Harness, args.maxAttempts, None)];
    ghost var slots := InitiationSlots(args);
    var next := 2;
    for i := 0 to |vs|
      invariant next == i + 2 && |stages| == i + 1
      invariant forall j | 0 <= j <= i :: stages[j] == Chained(slots, args.maxAttempts)[j]
    {
      assert slots[i + 1] == Slot(Verifier, Some(vs[i]));
      stages := stages + [StageIn(next, Verifier, Some(vs[i]), Harness, args.maxAttempts, Some(next - 1))];
      next := next + 1;
    }
    if args.includeDataChecker {
      var checker := if |args.contributors| > 0 then Some(args.contributors[0]) else args.lead;
      stages := stages + [StageIn(next, DataChecker, checker, Harness, args.maxAttempts, Some(next - 1))];
      next := next + 1;
    }
    stages := stages + [StageIn(next, Finalizer, args.lead, Harness, args.maxAttempts, Some(next - 1))];
    assert stages == Chained(slots, args.maxAttempts);
    return Some(stages);
  }
}
