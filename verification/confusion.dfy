/**
 The single counting pass of `test`: over label/prediction pairs it counts the
 mismatches, the positives P, the negatives N, the true positives TP and the true
 negatives TN. Labels stay real numbers, so a label outside {0, 1} is counted
 neither as positive nor as negative.
 */
module Confusion {
  import opened Binary

  datatype Counts = Counts(errors: nat, p: nat, n: nat, tp: nat, tn: nat) {

    /** The relations every tally over `len` pairs satisfies. */
    predicate Consistent(len: nat) {
      tp <= p && tn <= n && p + n <= len && errors <= len
    }

    /** False positives: negatives predicted positive. */
    function FalsePositives(): int {
      n - tn
    }
  }

  /**
   One iteration of the counting loop, for label `y` and prediction `yp`. Every
   counter moves up by at most one, a pair counts as positive or as negative but
   not both, and a true positive (true negative) is also counted as a positive
   (negative); so a consistent tally of `len` pairs stays consistent for `len + 1`.
   */
  function Step(c: Counts, y: real, yp: real): (r: Counts)
    ensures r.errors - c.errors in {0, 1}
    ensures r.p + r.n - (c.p + c.n) in {0, 1}
    ensures 0 <= r.tp - c.tp <= r.p - c.p && 0 <= r.tn - c.tn <= r.n - c.n
    ensures (r.p - c.p == 1 <==> y == 1.0) && (r.n - c.n == 1 <==> y == 0.0)
    ensures r.errors - c.errors == 1 <==> yp != y
    ensures (r.tp - c.tp == 1 <==> y == 1.0 && yp == 1.0) && (r.tn - c.tn == 1 <==> y == 0.0 && yp == 0.0)
  {
    Counts(
      if yp != y then c.errors + 1 else c.errors,
      if y == 1.0 then c.p + 1 else c.p,
      if y == 0.0 then c.n + 1 else c.n,
      if y == 1.0 && yp == 1.0 then c.tp + 1 else c.tp,
      if y == 0.0 && yp == 0.0 then c.tn + 1 else c.tn)
  }

  /** The counts after the loop has visited every pair, left to right. */
  function Tally(labels: seq<real>, preds: seq<real>): (c: Counts)
    requires |labels| == |preds|
    ensures c.Consistent(|labels|)
    decreases |labels|
  {
    if |labels| == 0 then
      Counts(0, 0, 0, 0, 0)
    else
      var k := |labels| - 1;
      Step(Tally(labels[..k], preds[..k]), labels[k], preds[k])
  }

  /**
   On 0/1 labels every pair is counted as positive or as negative; when the
   decisions are 0/1 too, every error is a missed positive or a missed negative.
   */
  lemma {:induction false} TallyOnBinaryData(labels: seq<real>, preds: seq<real>)
    requires |labels| == |preds|
    ensures var c := Tally(labels, preds);
      AllBinary(labels) ==> c.p + c.n == |labels|
    ensures var c := Tally(labels, preds);
      AllBinary(labels) && AllBinary(preds) ==> c.errors == (c.p - c.tp) + (c.n - c.tn)
    decreases |labels|
  {
    if |labels| > 0 {
      var k := |labels| - 1;
      TallyOnBinaryData(labels[..k], preds[..k]);
      if AllBinary(labels) {
        assert AllBinary(labels[..k]);
        if AllBinary(preds) {
          assert AllBinary(preds[..k]);
        }
      }
    }
  }

  // Reference definitions: the positions each counter is meant to count.

  predicate IsMismatch(y: real, yp: real) { yp != y }
  predicate IsPositive(y: real, yp: real) { y == 1.0 }
  predicate IsNegative(y: real, yp: real) { y == 0.0 }
  predicate IsTruePositive(y: real, yp: real) { y == 1.0 && yp == 1.0 }
  predicate IsTrueNegative(y: real, yp: real) { y == 0.0 && yp == 0.0 }

  /** The positions whose label/prediction pair has the property `kind`. */
  ghost function Where(labels: seq<real>, preds: seq<real>, kind: (real, real) -> bool): set<int>
    requires |labels| == |preds|
  {
    set i | 0 <= i < |labels| && kind(labels[i], preds[i])
  }

  ghost function MismatchAt(labels: seq<real>, preds: seq<real>): set<int>
    requires |labels| == |preds|
  {
    Where(labels, preds, IsMismatch)
  }

  ghost function PositiveAt(labels: seq<real>, preds: seq<real>): set<int>
    requires |labels| == |preds|
  {
    Where(labels, preds, IsPositive)
  }

  ghost function NegativeAt(labels: seq<real>, preds: seq<real>): set<int>
    requires |labels| == |preds|
  {
    Where(labels, preds, IsNegative)
  }

  ghost function TruePositiveAt(labels: seq<real>, preds: seq<real>): set<int>
    requires |labels| == |preds|
  {
    Where(labels, preds, IsTruePositive)
  }

  ghost function TrueNegativeAt(labels: seq<real>, preds: seq<real>): set<int>
    requires |labels| == |preds|
  {
    Where(labels, preds, IsTrueNegative)
  }

  /** Extending the pairs by one adds the new position exactly when it has the property. */
  lemma WhereGrows(labels: seq<real>, preds: seq<real>, kind: (real, real) -> bool)
    requires |labels| == |preds| > 0
    ensures var k := |labels| - 1;
      |Where(labels, preds, kind)|
      == |Where(labels[..k], preds[..k], kind)| + (if kind(labels[k], preds[k]) then 1 else 0)
  {
    var k := |labels| - 1;
    var before := Where(labels[..k], preds[..k], kind);
    assert k !in before;
    assert Where(labels, preds, kind) == before + (if kind(labels[k], preds[k]) then {k} else {});
  }

  /** Each counter of the tally is the number of positions of its kind. */
  lemma {:induction false} TallyCountsPositions(labels: seq<real>, preds: seq<real>)
    requires |labels| == |preds|
    ensures Tally(labels, preds).errors == |MismatchAt(labels, preds)|
    ensures Tally(labels, preds).p == |PositiveAt(labels, preds)|
    ensures Tally(labels, preds).n == |NegativeAt(labels, preds)|
    ensures Tally(labels, preds).tp == |TruePositiveAt(labels, preds)|
    ensures Tally(labels, preds).tn == |TrueNegativeAt(labels, preds)|
    decreases |labels|
  {
    if |labels| > 0 {
      var k := |labels| - 1;
      TallyCountsPositions(labels[..k], preds[..k]);
      WhereGrows(labels, preds, IsMismatch);
      WhereGrows(labels, preds, IsPositive);
      WhereGrows(labels, preds, IsNegative);
      WhereGrows(labels, preds, IsTruePositive);
      WhereGrows(labels, preds, IsTrueNegative);
    }
  }

  /** Visiting one more pair applies one loop step to the tally so far. */
  lemma TallyStep(labels: seq<real>, preds: seq<real>, i: int)
    requires |labels| == |preds| && 0 <= i < |labels|
    ensures Tally(labels[..i + 1], preds[..i + 1])
         == Step(Tally(labels[..i], preds[..i]), labels[i], preds[i])
  {
    assert labels[..i + 1][..i] == labels[..i] && preds[..i + 1][..i] == preds[..i];
  }

  /**
   The counting loop of `test`, one pass over the pairs. It computes the tally, so
   by `TallyCountsPositions` each counter is the number of positions of its kind.
   */
  method CountConfusion(labels: seq<real>, preds: seq<real>) returns (c: Counts)
    requires |labels| == |preds|
    ensures c == Tally(labels, preds)
  {
    var errors, p, n, tp, tn := 0, 0, 0, 0, 0;
    var i := 0;
    while i < |labels|
      invariant 0 <= i <= |labels|
      invariant Counts(errors, p, n, tp, tn) == Tally(labels[..i], preds[..i])
    {
      var yp, y := preds[i], labels[i];
      TallyStep(labels, preds, i);
      if yp != y {
        errors := errors + 1;
      }
      if y == 1.0 {
        p := p + 1;
        if yp == 1.0 {
          tp := tp + 1;
        }
      }
      if y == 0.0 {
        n := n + 1;
        if yp == 0.0 {
          tn := tn + 1;
        }
      }
      i := i + 1;
    }
    assert labels[..i] == labels && preds[..i] == preds;
    c := Counts(errors, p, n, tp, tn);
  }
}
