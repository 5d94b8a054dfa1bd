/** The constants of the simulation and the update rule of a single confidence value. */
module Rules {

  /** Largest confidence value a signature can have. */
  const ConfidenceMax: int := 100
  /** Smallest confidence value a signature can have, and the passive starting value. */
  const ConfidenceMin: int := 0

  /** The IEEE 754 double that the literal `.1` denotes, written out exactly (3602879701896397 / 2^55).
      Comparing a draw against this exact value decides `draw <= .1` as the float comparison does. */
  const PointOne: real := 0.1000000000000000055511151231257827021181583404541015625

  /** Passive regime: a draw at or below this rate means real traffic fired the signature. */
  const DetectionRate: real := PointOne
  /** Passive regime: increase of confidence on a day the signature fires. */
  const AppreciateRate: int := 30
  /** Passive regime: decrease of confidence on a day the signature does not fire. */
  const DepreciationRate: int := 5

  /** Synthetic regime: a draw at or below this rate means the synthetic component broke that day. */
  const MalfunctionRate: real := PointOne

  predicate Malfunctions(draw: real) { draw <= MalfunctionRate }

  predicate Fires(draw: real) { draw <= DetectionRate }

  /** Limits a passive confidence value to [ConfidenceMin, ConfidenceMax]. */
  function Clamp(x: int): (r: int)
    ensures ConfidenceMin <= r <= ConfidenceMax
    ensures ConfidenceMin <= x <= ConfidenceMax ==> r == x
    ensures x > ConfidenceMax ==> r == ConfidenceMax
    ensures x < ConfidenceMin ==> r == ConfidenceMin
  {
    if x > ConfidenceMax then ConfidenceMax
    else if x < ConfidenceMin then ConfidenceMin
    else x
  }

  /** The synthetic confidence of one signature on one day: no memory, only that day's draw. */
  function SyntheticConfidence(draw: real): (r: int)
    ensures r == ConfidenceMin || r == ConfidenceMax
    ensures r == ConfidenceMin <==> Malfunctions(draw)
  {
    if Malfunctions(draw) then ConfidenceMin else ConfidenceMax
  }

  /** The passive confidence of a signature after one day, given the previous day's value. */
  function PassiveStep(previous: int, fired: bool): (r: int)
    ensures ConfidenceMin <= r <= ConfidenceMax
    ensures ConfidenceMin <= previous <= ConfidenceMax && fired ==>
              previous <= r <= previous + AppreciateRate
    ensures ConfidenceMin <= previous <= ConfidenceMax && !fired ==>
              previous - DepreciationRate <= r <= previous
    ensures fired && ConfidenceMin <= previous && previous + AppreciateRate <= ConfidenceMax ==>
              r == previous + AppreciateRate
    ensures !fired && ConfidenceMin <= previous - DepreciationRate && previous <= ConfidenceMax ==>
              r == previous - DepreciationRate
  {
    Clamp(if fired then previous + AppreciateRate else previous - DepreciationRate)
  }

  /** The trajectory of a passive confidence value from `start`, one value per day,
      where `fired[i]` says whether the signature fired on day i + 1. */
  function Walk(start: int, fired: seq<bool>): (r: seq<int>)
    ensures |r| == |fired|
    ensures forall i :: 0 <= i < |r| ==> ConfidenceMin <= r[i] <= ConfidenceMax
    decreases |fired|
  {
    if fired == [] then []
    else
      var v := PassiveStep(start, fired[0]);
      [v] + Walk(v, fired[1..])
  }

  /** Each day's value of the walk is one step from the previous day's value (or from `start`). */
  lemma {:induction false} WalkAt(start: int, fired: seq<bool>, i: nat)
    requires i < |fired|
    ensures Walk(start, fired)[i] ==
            PassiveStep(if i == 0 then start else Walk(start, fired)[i - 1], fired[i])
    decreases i
  {
    if i > 0 {
      var v := PassiveStep(start, fired[0]);
      WalkAt(v, fired[1..], i - 1);
    }
  }

  /** The walk's value on a day depends only on the outcomes up to and including that day. */
  lemma {:induction false} WalkCausal(start: int, fired1: seq<bool>, fired2: seq<bool>, i: nat)
    requires i < |fired1| && i < |fired2|
    requires fired1[..i + 1] == fired2[..i + 1]
    ensures Walk(start, fired1)[i] == Walk(start, fired2)[i]
    decreases i
  {
    assert fired1[0] == fired1[..i + 1][0] == fired2[..i + 1][0] == fired2[0];
    if i > 0 {
      var v := PassiveStep(start, fired1[0]);
      assert fired1[1..][..i] == fired1[..i + 1][1..] == fired2[..i + 1][1..] == fired2[1..][..i];
      WalkCausal(v, fired1[1..], fired2[1..], i - 1);
    }
  }

  /** The two boundary cases of the clamp: 95 plus a fire is 100, 2 minus a miss is 0. */
  lemma ClampExamples()
    ensures PassiveStep(95, true) == 100
    ensures PassiveStep(2, false) == 0
  {
  }
}
