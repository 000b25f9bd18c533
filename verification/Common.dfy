/** Types, and facts about numbers, shared by the components of the model. */
module Common {

  datatype Option<+T> = None | Some(value: T)

  function Min(a: nat, b: nat): nat {
    if a < b then a else b
  }

  /** The least integer that is not below r. */
  function Ceil(r: real): int {
    -(-r).Floor
  }

  /** Every element is an index below n. */
  predicate InRange(indices: seq<nat>, n: nat) {
    forall i :: 0 <= i < |indices| ==> indices[i] < n
  }

  lemma StrictScale(x: real, y: real, b: real)
    requires b > 0.0 && x < y
    ensures x * b < y * b
  {
    assert (y - x) * b > 0.0;
  }

  /** A part of a positive whole, as a share of it. */
  lemma ShareOf(part: real, whole: real)
    requires whole > 0.0
    ensures part / whole < 1.0 <==> part < whole
    ensures part / whole > 1.0 <==> part > whole
    ensures part / whole < 0.0 <==> part < 0.0
    ensures part / whole > 0.0 <==> part > 0.0
  {
    var share := part / whole;
    assert share * whole == part;
    if share < 1.0 {
      StrictScale(share, 1.0, whole);
    } else if share > 1.0 {
      StrictScale(1.0, share, whole);
    }
    if share < 0.0 {
      StrictScale(share, 0.0, whole);
    } else if share > 0.0 {
      StrictScale(0.0, share, whole);
    }
  }
}
