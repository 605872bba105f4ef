// The target-price arm of the automatic cross-check rule (core/orchestrator/cross_check.py).
module CrossCheck {
  import opened Domain

  function Abs(x: real): real {
    if x < 0.0 then -x else x
  }

  // The first target price that carries a value.
  function ExtractTarget(predictions: seq<PredictionIn>): Option<real> {
    if predictions == [] then None
    else if predictions[0].kind.TargetPrice? && predictions[0].value.Some? then predictions[0].value
    else ExtractTarget(predictions[1..])
  }

  // Truthiness of the stored price: an absent or a zero price is no baseline.
  predicate Material(lastTp: Option<real>, newTp: Option<real>, pct: real) {
    && newTp.Some?
    && lastTp.Some? && lastTp.value != 0.0
    && Abs(newTp.value - lastTp.value) / Abs(lastTp.value) * 100.0 > pct
  }

  predicate AutoCrossCheck(result: Option<StageResult>, lastTp: Option<real>, pct: real) {
    Truthy(result) && Material(lastTp, ExtractTarget(result.value.predictions), pct)
  }

  // The extracted price is the earliest valued target in the list, and there is none
  // exactly when no entry is a valued target.
  lemma {:induction false} ExtractTargetExact(ps: seq<PredictionIn>)
    ensures ExtractTarget(ps).None? <==> forall i | 0 <= i < |ps| :: !(ps[i].kind.TargetPrice? && ps[i].value.Some?)
    ensures ExtractTarget(ps).Some? ==>
              exists i :: 0 <= i < |ps| && ps[i].kind.TargetPrice? && ps[i].value == ExtractTarget(ps)
                          && forall j | 0 <= j < i :: !(ps[j].kind.TargetPrice? && ps[j].value.Some?)
  {
    if ps == [] {
    } else if ps[0].kind.TargetPrice? && ps[0].value.Some? {
      assert ps[0].value == ExtractTarget(ps);
    } else {
      var rest := ps[1..];
      ExtractTargetExact(rest);
      assert forall i | 0 <= i < |rest| :: rest[i] == ps[i + 1];
      if ExtractTarget(rest).Some? {
        var i :| 0 <= i < |rest| && rest[i].kind.TargetPrice? && rest[i].value == ExtractTarget(rest)
                 && forall j | 0 <= j < i :: !(rest[j].kind.TargetPrice? && rest[j].value.Some?);
        forall j | 0 <= j < i + 1 ensures !(ps[j].kind.TargetPrice? && ps[j].value.Some?) {
          if j > 0 { assert ps[j] == rest[j - 1]; }
        }
        assert ps[i + 1].value == ExtractTarget(ps);
      } else {
        forall j | 0 <= j < |ps| ensures !(ps[j].kind.TargetPrice? && ps[j].value.Some?) {
          if j > 0 { assert ps[j] == rest[j - 1]; }
        }
      }
    }
  }
}
