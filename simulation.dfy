/** The simulation engine: for a number of signatures and a number of days it builds two
    tables of daily confidence values, one under synthetic validation and one under passive
    validation, from an injected stream of uniform random draws. */
module Simulation {
  import opened Rules
  import opened DrawStream

  /** One row of a result table: the day number and one confidence value per signature,
      `values[s]` being the column of signature s + 1. */
  datatype Row = Row(day: int, values: seq<int>)

  /** A table of `days` rows numbered 1, 2, ... with one value per signature in each. */
  predicate Shaped(table: seq<Row>, signatures: int, days: int)
  {
    |table| == Iterations(days) &&
    forall i :: 0 <= i < |table| ==> table[i].day == i + 1 && |table[i].values| == Iterations(signatures)
  }

  /** The outcomes (fired or not) of signature s's passive draws, day by day. */
  function PassiveOutcomes(draws: seq<real>, signatures: nat, days: nat, s: nat): seq<bool>
    requires s < signatures && |draws| >= DrawsBefore(signatures, days)
  {
    seq(days, d requires 0 <= d < days => Fires(draws[PassiveDraw(signatures, days, d, s)]))
  }

  /** The synthetic values of day index d: each decided by that cell's own draw alone. */
  function SyntheticRow(draws: seq<real>, signatures: nat, days: nat, d: nat): (values: seq<int>)
    requires d < days && |draws| >= DrawsBefore(signatures, days)
    ensures |values| == signatures
    ensures forall s :: 0 <= s < signatures ==> values[s] == ConfidenceMin || values[s] == ConfidenceMax
  {
    seq(signatures, s requires 0 <= s < signatures =>
      SyntheticConfidence(draws[SyntheticDraw(signatures, days, d, s)]))
  }

  /** The passive values of day index d: signature s's value is day d's point of the bounded
      walk from ConfidenceMin driven by that signature's passive outcomes. */
  function PassiveRow(draws: seq<real>, signatures: nat, days: nat, d: nat): (values: seq<int>)
    requires d < days && |draws| >= DrawsBefore(signatures, days)
    ensures |values| == signatures
    ensures forall s :: 0 <= s < signatures ==> ConfidenceMin <= values[s] <= ConfidenceMax
  {
    seq(signatures, s requires 0 <= s < signatures =>
      Walk(ConfidenceMin, PassiveOutcomes(draws, signatures, days, s))[d])
  }

  /** The passive update rule on rows: each value is one step from the same signature's value
      the day before, or from ConfidenceMin on day 1, driven by the cell's own passive draw. */
  lemma PassiveRowStep(draws: seq<real>, signatures: nat, days: nat, d: nat, s: nat)
    requires d < days && s < signatures && |draws| >= DrawsBefore(signatures, days)
    ensures PassiveRow(draws, signatures, days, d)[s] ==
            PassiveStep(if d == 0 then ConfidenceMin else PassiveRow(draws, signatures, days, d - 1)[s],
                        Fires(draws[PassiveDraw(signatures, days, d, s)]))
  {
    WalkAt(ConfidenceMin, PassiveOutcomes(draws, signatures, days, s), d);
  }

  /** The synthetic table a run produces: every value is ConfidenceMin or ConfidenceMax. */
  function SyntheticTable(draws: seq<real>, signatures: int, days: int): (table: seq<Row>)
    requires |draws| >= DrawsNeeded(signatures, days)
    ensures Shaped(table, signatures, days)
    ensures forall d, s :: 0 <= d < |table| && 0 <= s < |table[d].values| ==>
              table[d].values[s] == ConfidenceMin || table[d].values[s] == ConfidenceMax
  {
    var n, nd := Iterations(signatures), Iterations(days);
    seq(nd, d requires 0 <= d < nd => Row(d + 1, SyntheticRow(draws, n, nd, d)))
  }

  /** The passive table a run produces: every value lies in [ConfidenceMin, ConfidenceMax]. */
  function PassiveTable(draws: seq<real>, signatures: int, days: int): (table: seq<Row>)
    requires |draws| >= DrawsNeeded(signatures, days)
    ensures Shaped(table, signatures, days)
    ensures forall d, s :: 0 <= d < |table| && 0 <= s < |table[d].values| ==>
              ConfidenceMin <= table[d].values[s] <= ConfidenceMax
  {
    var n, nd := Iterations(signatures), Iterations(days);
    seq(nd, d requires 0 <= d < nd => Row(d + 1, PassiveRow(draws, n, nd, d)))
  }

  /** A synthetic cell is ConfidenceMin exactly when its own synthetic draw reports a
      malfunction, and ConfidenceMax otherwise. */
  lemma SyntheticCell(draws: seq<real>, signatures: int, days: int, d: nat, s: nat)
    requires |draws| >= DrawsNeeded(signatures, days)
    requires d < Iterations(days) && s < Iterations(signatures)
    ensures var k := SyntheticDraw(Iterations(signatures), Iterations(days), d, s);
            var cell := SyntheticTable(draws, signatures, days)[d].values[s];
            (cell == ConfidenceMin <==> Malfunctions(draws[k])) &&
            (cell == ConfidenceMax <==> !Malfunctions(draws[k]))
  {
  }

  /** A synthetic cell depends on its own draw alone: two runs (over any numbers of days, with
      any other draws) that agree on that one draw agree on the cell. */
  lemma SyntheticCellIsLocal(draws1: seq<real>, draws2: seq<real>, signatures: int,
                             days1: int, days2: int, d: nat, s: nat)
    requires |draws1| >= DrawsNeeded(signatures, days1) && |draws2| >= DrawsNeeded(signatures, days2)
    requires d < Iterations(days1) && d < Iterations(days2) && s < Iterations(signatures)
    requires draws1[SyntheticDraw(Iterations(signatures), Iterations(days1), d, s)] ==
             draws2[SyntheticDraw(Iterations(signatures), Iterations(days2), d, s)]
    ensures SyntheticTable(draws1, signatures, days1)[d].values[s] ==
            SyntheticTable(draws2, signatures, days2)[d].values[s]
  {
  }

  /** On day 1 a passive cell is AppreciateRate if its passive draw fires and ConfidenceMin
      otherwise (the start value ConfidenceMin minus DepreciationRate clamps back to it). */
  lemma PassiveFirstDay(draws: seq<real>, signatures: int, days: int, s: nat)
    requires |draws| >= DrawsNeeded(signatures, days)
    requires 1 <= days && s < Iterations(signatures)
    ensures PassiveTable(draws, signatures, days)[0].values[s] ==
            if Fires(draws[PassiveDraw(Iterations(signatures), Iterations(days), 0, s)])
            then AppreciateRate else ConfidenceMin
  {
    PassiveRowStep(draws, Iterations(signatures), Iterations(days), 0, s);
  }

  /** The passive update rule on the table: from day 2 on, a signature's cell is its value the
      day before plus AppreciateRate if its passive draw fires, minus DepreciationRate if not,
      clamped to [ConfidenceMin, ConfidenceMax]. */
  lemma PassiveCell(draws: seq<real>, signatures: int, days: int, d: nat, s: nat)
    requires |draws| >= DrawsNeeded(signatures, days)
    requires 1 <= d < Iterations(days) && s < Iterations(signatures)
    ensures var table := PassiveTable(draws, signatures, days);
            var k := PassiveDraw(Iterations(signatures), Iterations(days), d, s);
            table[d].values[s] ==
              Clamp(if Fires(draws[k]) then table[d - 1].values[s] + AppreciateRate
                    else table[d - 1].values[s] - DepreciationRate)
  {
    PassiveRowStep(draws, Iterations(signatures), Iterations(days), d, s);
  }

  /** From one day to the next a passive cell never falls on a fire and never rises on a miss;
      a fire raises it by at most AppreciateRate, a miss lowers it by at most DepreciationRate. */
  lemma PassiveDailyChange(draws: seq<real>, signatures: int, days: int, d: nat, s: nat)
    requires |draws| >= DrawsNeeded(signatures, days)
    requires 1 <= d < Iterations(days) && s < Iterations(signatures)
    ensures var table := PassiveTable(draws, signatures, days);
            var before, after := table[d - 1].values[s], table[d].values[s];
            var k := PassiveDraw(Iterations(signatures), Iterations(days), d, s);
            (Fires(draws[k]) ==> before <= after <= before + AppreciateRate) &&
            (!Fires(draws[k]) ==> before - DepreciationRate <= after <= before)
  {
    PassiveRowStep(draws, Iterations(signatures), Iterations(days), d, s);
  }

  /** A passive cell depends only on its own signature's passive outcomes up to and including
      that day: two runs that agree on those agree on the cell, whatever their other draws. */
  lemma PassiveCellIsCausal(draws1: seq<real>, draws2: seq<real>, signatures: int,
                            days1: int, days2: int, d: nat, s: nat)
    requires |draws1| >= DrawsNeeded(signatures, days1) && |draws2| >= DrawsNeeded(signatures, days2)
    requires d < Iterations(days1) && d < Iterations(days2) && s < Iterations(signatures)
    requires forall e :: 0 <= e <= d ==>
               Fires(draws1[PassiveDraw(Iterations(signatures), Iterations(days1), e, s)]) ==
               Fires(draws2[PassiveDraw(Iterations(signatures), Iterations(days2), e, s)])
    ensures PassiveTable(draws1, signatures, days1)[d].values[s] ==
            PassiveTable(draws2, signatures, days2)[d].values[s]
  {
    var n := Iterations(signatures);
    var fired1 := PassiveOutcomes(draws1, n, Iterations(days1), s);
    var fired2 := PassiveOutcomes(draws2, n, Iterations(days2), s);
    assert fired1[..d + 1] == fired2[..d + 1];
    WalkCausal(ConfidenceMin, fired1, fired2, d);
  }

  /** One signature over two days: when the passive draw fires on day 1 and misses on day 2,
      the passive confidence is 30 after day 1 and 25 after day 2. */
  lemma PassiveFireThenMiss(draws: seq<real>)
    requires |draws| == 4 && Fires(draws[1]) && !Fires(draws[3])
    ensures PassiveTable(draws, 1, 2) == [Row(1, [30]), Row(2, [25])]
  {
    assert DrawsBefore(1, 1) == 2 && DrawsBefore(1, 2) == 4;
    PassiveRowStep(draws, 1, 2, 0, 0);
    PassiveRowStep(draws, 1, 2, 1, 0);
    assert PassiveRow(draws, 1, 2, 0) == [30];
    assert PassiveRow(draws, 1, 2, 1) == [25];
  }

  /** The body of the inner loop for one signature: the synthetic value from the synthetic
      draw, and the passive value from the previous one and the passive draw, clamped. */
  method SimulateCell(previous: int, syntheticDraw: real, passiveDraw: real)
    returns (syntheticConfidence: int, passiveConfidence: int)
    ensures syntheticConfidence == SyntheticConfidence(syntheticDraw)
    ensures passiveConfidence == PassiveStep(previous, Fires(passiveDraw))
  {
    if syntheticDraw <= MalfunctionRate {
      syntheticConfidence := ConfidenceMin;
    } else {
      syntheticConfidence := ConfidenceMax;
    }

    if passiveDraw <= DetectionRate {
      passiveConfidence := previous + AppreciateRate;
    } else {
      passiveConfidence := previous - DepreciationRate;
    }

    if passiveConfidence > ConfidenceMax {
      passiveConfidence := ConfidenceMax;
    } else if passiveConfidence < ConfidenceMin {
      passiveConfidence := ConfidenceMin;
    }
  }

  /** One pass of the outer loop's body: builds day `day`'s synthetic and passive values,
      signature by signature, taking the draws from position `first` on; each signature's
      previous passive value is read back from the last row of `passive`, the rows of the
      days before. */
  method SimulateDay(signatures: int, days: int, day: int, draws: seq<real>, passive: seq<Row>, first: nat)
    returns (syntheticResults: seq<int>, passiveResults: seq<int>, next: nat)
    requires 1 <= day <= Iterations(days) && |draws| >= DrawsNeeded(signatures, days)
    requires first == DrawsBefore(Iterations(signatures), day - 1)
    requires |passive| == day - 1
    requires day > 1 ==> passive[day - 2].values == PassiveRow(draws, Iterations(signatures), Iterations(days), day - 2)
    ensures syntheticResults == SyntheticRow(draws, Iterations(signatures), Iterations(days), day - 1)
    ensures passiveResults == PassiveRow(draws, Iterations(signatures), Iterations(days), day - 1)
    ensures next == DrawsBefore(Iterations(signatures), day)
  {
    var n, nd := Iterations(signatures), Iterations(days);
    ghost var d := day - 1;
    ghost var syntheticSpec, passiveSpec := SyntheticRow(draws, n, nd, d), PassiveRow(draws, n, nd, d);
    syntheticResults, passiveResults := [], [];
    next := first;
    var signature := 1;
    while signatures >= signature
      invariant 1 <= signature <= n + 1
      invariant next == DrawsBefore(n, d) + 2 * (signature - 1)
      invariant syntheticResults == syntheticSpec[..signature - 1]
      invariant passiveResults == passiveSpec[..signature - 1]
    {
      ghost var s := signature - 1;
      assert next == SyntheticDraw(n, nd, d, s);
      PassiveRowStep(draws, n, nd, d, s);
      var previous;
      if day > 1 {
        previous := passive[|passive| - 1].values[signature - 1];
      } else {
        previous := ConfidenceMin;
      }
      var syntheticConfidence, passiveConfidence := SimulateCell(previous, draws[next], draws[next + 1]);
      syntheticResults := syntheticResults + [syntheticConfidence];
      passiveResults := passiveResults + [passiveConfidence];
      next := next + 2;
      signature := signature + 1;
    }
    assert syntheticResults == syntheticSpec[..n];
    assert passiveResults == passiveSpec[..n];
  }

  /** Runs the simulation over `signatures` signatures for `days` days, taking its random
      draws from `draws` in order; returns the synthetic table, the passive table and the
      number of draws taken. Non-positive arguments are not rejected: they run no iteration. */
  method Simulate(signatures: int, days: int, draws: seq<real>)
    returns (synthetic: seq<Row>, passive: seq<Row>, used: nat)
    requires |draws| >= DrawsNeeded(signatures, days)
    ensures synthetic == SyntheticTable(draws, signatures, days)
    ensures passive == PassiveTable(draws, signatures, days)
    ensures used == DrawsNeeded(signatures, days)
  {
    var n, nd := Iterations(signatures), Iterations(days);
    synthetic, passive := [], [];
    var next := 0;  // position of the next draw in the stream
    var day := 1;
    while days >= day
      invariant 1 <= day <= nd + 1
      invariant next == DrawsBefore(n, day - 1)
      invariant |synthetic| == |passive| == day - 1
      invariant forall i :: 0 <= i < day - 1 ==> synthetic[i] == Row(i + 1, SyntheticRow(draws, n, nd, i))
      invariant forall i :: 0 <= i < day - 1 ==> passive[i] == Row(i + 1, PassiveRow(draws, n, nd, i))
    {
      var syntheticResults, passiveResults;
      syntheticResults, passiveResults, next := SimulateDay(signatures, days, day, draws, passive, next);
      synthetic := synthetic + [Row(day, syntheticResults)];
      passive := passive + [Row(day, passiveResults)];
      day := day + 1;
    }
    used := next;
  }
}
