/** Where in the injected stream of random draws each cell of the simulation takes its draws.

    Days are the outer loop and signatures the inner loop; every (day, signature) cell takes
    two consecutive draws, first the synthetic one and then the passive one. Days and
    signatures are 0-based here: index d stands for day d + 1, index s for signature s + 1. */
module DrawStream {

  /** How often `while bound >= counter` runs when counter starts at 1 and grows by one. */
  function Iterations(bound: int): nat
  {
    if bound < 1 then 0 else bound
  }

  /** Number of draws the first d days take: two per signature per day. */
  function DrawsBefore(signatures: nat, d: nat): nat
  {
    if d == 0 then 0 else DrawsBefore(signatures, d - 1) + 2 * signatures
  }

  lemma {:induction false} DrawsBeforeIsProduct(signatures: nat, d: nat)
    ensures DrawsBefore(signatures, d) == 2 * d * signatures
  {
    if d > 0 {
      DrawsBeforeIsProduct(signatures, d - 1);
      assert 2 * d * signatures == 2 * (d - 1) * signatures + 2 * signatures;
    }
  }

  lemma {:induction false} DrawsBeforeMonotone(signatures: nat, d1: nat, d2: nat)
    requires d1 <= d2
    ensures DrawsBefore(signatures, d1) <= DrawsBefore(signatures, d2)
    decreases d2
  {
    if d1 < d2 {
      DrawsBeforeMonotone(signatures, d1, d2 - 1);
    }
  }

  /** Number of draws a run with these arguments takes from the stream. */
  function DrawsNeeded(signatures: int, days: int): nat
  {
    DrawsBefore(Iterations(signatures), Iterations(days))
  }

  /** A run takes two draws per signature per day, and none at all when either argument is
      below 1. */
  lemma DrawsNeededCount(signatures: int, days: int)
    ensures DrawsNeeded(signatures, days) == 2 * Iterations(days) * Iterations(signatures)
    ensures signatures < 1 || days < 1 ==> DrawsNeeded(signatures, days) == 0
  {
    DrawsBeforeIsProduct(Iterations(signatures), Iterations(days));
  }

  /** Position in the stream of the synthetic draw of cell (d, s) in a run of `days` days
      over `signatures` signatures; it lies inside the part of the stream the run uses. */
  function SyntheticDraw(signatures: nat, days: nat, d: nat, s: nat): (k: nat)
    requires d < days && s < signatures
    ensures k + 1 < DrawsBefore(signatures, days)
  {
    DrawsBeforeMonotone(signatures, d + 1, days);
    DrawsBefore(signatures, d) + 2 * s
  }

  /** Position in the stream of the passive draw of cell (d, s). */
  function PassiveDraw(signatures: nat, days: nat, d: nat, s: nat): (k: nat)
    requires d < days && s < signatures
    ensures k < DrawsBefore(signatures, days)
  {
    SyntheticDraw(signatures, days, d, s) + 1
  }

  /** The cells consume the stream in order and without gaps: the first cell starts at
      position 0, each passive draw directly follows its cell's synthetic draw, the next
      signature's synthetic draw directly follows, the next day starts right after the last
      signature of the day before, and the last cell ends the part of the stream the run uses. */
  lemma DrawOrder(signatures: nat, days: nat, d: nat, s: nat)
    requires d < days && s < signatures
    ensures d == 0 && s == 0 ==> SyntheticDraw(signatures, days, d, s) == 0
    ensures PassiveDraw(signatures, days, d, s) == SyntheticDraw(signatures, days, d, s) + 1
    ensures s + 1 < signatures ==>
              SyntheticDraw(signatures, days, d, s + 1) == PassiveDraw(signatures, days, d, s) + 1
    ensures s + 1 == signatures && d + 1 < days ==>
              SyntheticDraw(signatures, days, d + 1, 0) == PassiveDraw(signatures, days, d, s) + 1
    ensures s + 1 == signatures && d + 1 == days ==>
              PassiveDraw(signatures, days, d, s) + 1 == 2 * days * signatures
  {
    DrawsBeforeIsProduct(signatures, days);
  }

  /** Two different cells never share a draw. */
  lemma DrawsDistinct(signatures: nat, days: nat, d1: nat, s1: nat, d2: nat, s2: nat)
    requires d1 < days && s1 < signatures && d2 < days && s2 < signatures
    requires (d1, s1) != (d2, s2)
    ensures SyntheticDraw(signatures, days, d1, s1) != SyntheticDraw(signatures, days, d2, s2)
    ensures PassiveDraw(signatures, days, d1, s1) != PassiveDraw(signatures, days, d2, s2)
    ensures SyntheticDraw(signatures, days, d1, s1) != PassiveDraw(signatures, days, d2, s2)
  {
    if d1 < d2 {
      DrawsBeforeMonotone(signatures, d1 + 1, d2);
    } else if d2 < d1 {
      DrawsBeforeMonotone(signatures, d2 + 1, d1);
    }
  }

  lemma MultiplyCancel(a: nat, b: nat, c: nat)
    requires a * c < b * c
    ensures a < b
  {
  }

  /** Every position the run uses is the synthetic or the passive draw of some cell, so a run
      uses exactly the first 2 * days * signatures draws of the stream. */
  lemma DrawOwner(signatures: nat, days: nat, k: nat)
    requires k < 2 * days * signatures
    ensures exists d: nat, s: nat :: d < days && s < signatures &&
              (k == SyntheticDraw(signatures, days, d, s) || k == PassiveDraw(signatures, days, d, s))
  {
    var cell := k / 2;
    assert cell < days * signatures;
    var d := cell / signatures;
    var s := cell % signatures;
    assert cell == d * signatures + s;
    assert d * signatures <= cell;
    MultiplyCancel(d, days, signatures);
    DrawsBeforeIsProduct(signatures, d);
    assert SyntheticDraw(signatures, days, d, s) == 2 * cell;
    assert k == SyntheticDraw(signatures, days, d, s) || k == PassiveDraw(signatures, days, d, s);
  }
}
