/**
 * The lane (channel) table: `initChannel` empties the table and calls
 * `createChannel` once per lane; each new lane sits one item height plus one
 * inter-lane gap below the previous lane, and the first lane sits at the
 * top safe area.
 */
module Channels {

  /**
   * The options the scheduling core reads. The styling options (font size,
   * colour, extra style) only reach the rendering and are not modelled.
   */
  datatype Config = Config(
    maxBarrageNum: int,     // number of lanes
    barrageHeight: real,    // height of one item
    overTimes: real,        // seconds one full traversal takes
    barrageSafeArea: real,  // gap between two neighbouring lanes
    safeArea: real)         // offset reserved above the first lane

  /** The constructor's defaults. */
  const Defaults := Config(3, 40.0, 6.0, 10.0, 0.0)

  datatype Channel = Channel(top: real)

  /** Distance between the tops of two neighbouring lanes. */
  function Pitch(cfg: Config): real
  {
    cfg.barrageHeight + cfg.barrageSafeArea
  }

  /**
   * Number of lanes the table gets: the loop `index < maxBarrageNum` runs
   * no time for a non-positive count.
   */
  function LaneCount(cfg: Config): nat
  {
    if cfg.maxBarrageNum <= 0 then 0 else cfg.maxBarrageNum
  }

  /** The closed form of lane `i`'s top. */
  function TopOf(cfg: Config, i: int): real
  {
    cfg.safeArea + (i as real) * Pitch(cfg)
  }

  /** `createChannel`: one lane appended below the last one, or at the safe area when the table is empty. */
  function CreateChannel(cfg: Config, chs: seq<Channel>): seq<Channel>
  {
    chs + [Channel(if |chs| > 0 then chs[|chs| - 1].top + Pitch(cfg) else cfg.safeArea)]
  }

  /** The table after `createChannel` has run `k` times on an empty table. */
  function Build(cfg: Config, k: nat): (r: seq<Channel>)
    ensures |r| == k
    ensures forall i :: 0 <= i < k ==> r[i].top == TopOf(cfg, i)
  {
    if k == 0 then []
    else
      var prev := Build(cfg, k - 1);
      assert k >= 2 ==> prev[k - 2].top + Pitch(cfg) == TopOf(cfg, k - 1) by {
        if k >= 2 {
          assert ((k - 1) as real) * Pitch(cfg) == ((k - 2) as real) * Pitch(cfg) + Pitch(cfg);
        }
      }
      CreateChannel(cfg, prev)
  }

  /** The table `initChannel` leaves behind. */
  function ChannelTable(cfg: Config): seq<Channel>
  {
    Build(cfg, LaneCount(cfg))
  }

  /** `initChannel`, written as the source's loop. */
  method InitChannel(cfg: Config) returns (chs: seq<Channel>)
    ensures |chs| == LaneCount(cfg)
    ensures |chs| > 0 ==> chs[0].top == cfg.safeArea
    ensures forall i :: 0 < i < |chs| ==> chs[i].top == chs[i - 1].top + Pitch(cfg)
    ensures chs == ChannelTable(cfg)
  {
    chs := [];
    var index := 0;
    while index < cfg.maxBarrageNum
      invariant 0 <= index
      invariant index <= LaneCount(cfg)
      invariant chs == Build(cfg, index)
    {
      chs := CreateChannel(cfg, chs);
      index := index + 1;
    }
    forall i | 0 < i < |chs|
      ensures chs[i].top == chs[i - 1].top + Pitch(cfg)
    {
      assert (i as real) * Pitch(cfg) == ((i - 1) as real) * Pitch(cfg) + Pitch(cfg);
    }
  }

  /** With a positive pitch the lanes are strictly ordered top to bottom. */
  lemma TopsIncreasing(cfg: Config, i: int, j: int)
    requires Pitch(cfg) > 0.0
    requires 0 <= i < j < LaneCount(cfg)
    ensures ChannelTable(cfg)[i].top < ChannelTable(cfg)[j].top
  {
    var t := ChannelTable(cfg);
    var p := Pitch(cfg);
    var d := (j - i) as real;
    assert t[i].top == cfg.safeArea + (i as real) * p;
    assert t[j].top == cfg.safeArea + ((i as real) + d) * p;
    assert ((i as real) + d) * p == (i as real) * p + d * p;
    assert d * p > 0.0;
  }

  /** Rebuilding with another safe area moves every lane by the difference and changes nothing else. */
  lemma RebuildShiftsLanes(cfg: Config, newSafeArea: real)
    ensures |ChannelTable(cfg.(safeArea := newSafeArea))| == |ChannelTable(cfg)|
    ensures forall i :: 0 <= i < LaneCount(cfg) ==>
      ChannelTable(cfg.(safeArea := newSafeArea))[i].top
        == ChannelTable(cfg)[i].top + (newSafeArea - cfg.safeArea)
  {
  }

  /** With the defaults the lanes sit at 0, 50 and 100. */
  lemma DefaultTable()
    ensures ChannelTable(Defaults) == [Channel(0.0), Channel(50.0), Channel(100.0)]
  {
    var t := ChannelTable(Defaults);
    assert t[0].top == 0.0 && t[1].top == 50.0 && t[2].top == 100.0;
  }
}
