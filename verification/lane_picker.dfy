/**
 * `getRandomChannelIndex`: draw `floor(random * maxBarrageNum)` and draw again
 * while the result equals the lane chosen last time; the accepted lane becomes
 * the new `lastRandom`. The random source is a sequence of draws, each already
 * floored into `[0, n)`.
 */
module LanePicker {

  import opened Wrappers

  /** Every draw is a lane index of a table of `n` lanes. */
  predicate InRange(n: int, draws: seq<int>)
  {
    forall k :: 0 <= k < |draws| ==> 0 <= draws[k] < n
  }

  /** A draw is kept when it differs from the last lane (`null` equals no number). */
  predicate Accepted(last: Option<int>, d: int)
  {
    last != Some(d)
  }

  /** The draws contain one the picker keeps; otherwise the source recurses for ever. */
  predicate HasAccepted(last: Option<int>, draws: seq<int>)
  {
    exists k :: 0 <= k < |draws| && Accepted(last, draws[k])
  }

  /**
   * The lane counts for which a pick can finish: two lanes or more, or a
   * single lane that has never been chosen. With no lane the caller reads
   * `channels[0].top` of an empty table.
   */
  predicate LaneCountOk(n: int, last: Option<int>)
  {
    n >= 2 || (n == 1 && last == None)
  }

  /** The accepted lane and the draws left unread. */
  datatype Pick = Pick(lane: int, rest: seq<int>)

  function PickLane(n: int, last: Option<int>, draws: seq<int>): (r: Pick)
    requires LaneCountOk(n, last)
    requires InRange(n, draws)
    requires HasAccepted(last, draws)
    ensures 0 <= r.lane < n
    ensures Accepted(last, r.lane)
    ensures |r.rest| < |draws|
    ensures draws[|draws| - |r.rest| - 1] == r.lane
    ensures r.rest == draws[|draws| - |r.rest|..]
    ensures forall j :: 0 <= j < |draws| - |r.rest| - 1 ==> !Accepted(last, draws[j])
  {
    if Accepted(last, draws[0]) then Pick(draws[0], draws[1..])
    else
      assert HasAccepted(last, draws[1..]) by {
        var k :| 0 <= k < |draws| && Accepted(last, draws[k]);
        assert draws[1..][k - 1] == draws[k];
      }
      PickLane(n, last, draws[1..])
  }

  /** With one lane already used, no draw can be kept: the recursion never ends. */
  lemma SingleUsedLaneHangs(draws: seq<int>)
    requires InRange(1, draws)
    ensures !HasAccepted(Some(0), draws)
  {
  }

  /** Two different draws always leave one the picker keeps, whatever the last lane was. */
  lemma TwoDistinctDrawsSuffice(n: int, last: Option<int>, draws: seq<int>, i: int, j: int)
    requires 0 <= i < |draws| && 0 <= j < |draws| && draws[i] != draws[j]
    ensures HasAccepted(last, draws)
  {
    if Accepted(last, draws[i]) {
      assert 0 <= i < |draws| && Accepted(last, draws[i]);
    } else {
      assert 0 <= j < |draws| && Accepted(last, draws[j]);
    }
  }

  /** Two in-range different draws also mean there are at least two lanes. */
  lemma TwoDistinctDrawsNeedTwoLanes(n: int, last: Option<int>, draws: seq<int>, i: int, j: int)
    requires InRange(n, draws)
    requires 0 <= i < |draws| && 0 <= j < |draws| && draws[i] != draws[j]
    ensures LaneCountOk(n, last)
  {
  }
}
