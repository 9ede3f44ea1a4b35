/**
 * The scheduling state of one `Barrage` instance and the steps that change it.
 * The timer is the flag `timerArmed`; a tick is an explicit step. The DOM
 * reads (element and page widths, bounding rectangles) and the random draws
 * are inputs of the steps.
 */
module Engine {

  import opened Wrappers
  import opened Channels
  import opened LanePicker

  /** The payload of one item: its text and an optional avatar image. */
  datatype Item = Item(text: string, src: Option<string>)

  /**
   * An item that has been placed in the container. `channel` is the
   * `data-channel` attribute (lane index plus one) and `rate` the `data-rate`
   * attribute (pixels per second); `translateX` is the target of the
   * transform and `duration` the seconds of the transition towards it.
   */
  datatype Live = Live(
    item: Item,
    top: real,
    right: real,
    translateX: real,
    duration: real,
    channel: int,
    rate: real)

  /**
   * The engine state of one instance. `opts` is `None` once the instance is
   * destroyed (its option objects are emptied). `pending` is the `doms`
   * list, newest item first.
   */
  datatype State = State(
    opts: Option<Config>,
    channels: seq<Channel>,
    pending: seq<Item>,
    lastRandom: Option<int>,
    timerArmed: bool,
    live: seq<Live>)

  /** What a dispatch reads from outside: the element's and the page's widths and the random draws. */
  datatype DispatchInput = DispatchInput(width: real, bodyWidth: real, draws: seq<int>)

  /** The element sits on the lane its `data-channel` names. */
  predicate OnLane(chs: seq<Channel>, e: Live)
  {
    1 <= e.channel <= |chs| && e.top == chs[e.channel - 1].top
  }

  /** What every reachable state satisfies. */
  predicate Valid(s: State)
  {
    match s.opts
    case None => s.channels == [] && s.pending == [] && s.live == []
    case Some(cfg) =>
      && s.channels == ChannelTable(cfg)
      && (s.lastRandom.Some? ==> 0 <= s.lastRandom.value < LaneCount(cfg))
      && forall k :: 0 <= k < |s.live| ==> OnLane(s.channels, s.live[k])
  }

  /** A dispatch of `s` can finish on input `inp`; nothing is needed when no item waits. */
  predicate Dispatchable(s: State, inp: DispatchInput)
  {
    s.pending != [] ==>
      && s.opts.Some?
      && LaneCountOk(LaneCount(s.opts.value), s.lastRandom)
      && InRange(LaneCount(s.opts.value), inp.draws)
      && HasAccepted(s.lastRandom, inp.draws)
      && s.opts.value.overTimes != 0.0
  }

  /** The constructor: options merged, lanes built, nothing pending, no timer yet. */
  function Create(cfg: Config): (r: State)
    ensures Valid(r)
    ensures |r.channels| == LaneCount(cfg)
    ensures r.pending == [] && r.live == [] && !r.timerArmed && r.lastRandom == None
  {
    State(Some(cfg), ChannelTable(cfg), [], None, false, [])
  }

  /**
   * `createBarrage`: the new item goes in front of the pending list. After
   * destruction the list no longer exists and the item is dropped.
   */
  function Enqueue(s: State, item: Item): (r: State)
    ensures s.opts.Some? ==>
      |r.pending| == |s.pending| + 1 && r.pending[0] == item && r.pending[1..] == s.pending
    ensures s.opts.None? ==> r == s
    ensures r.(pending := s.pending) == s
    ensures Valid(s) ==> Valid(r)
  {
    if s.opts.None? then s else s.(pending := [item] + s.pending)
  }

  /**
   * `e` is `item` as `insertBarrageInDom` places it: on one of the lanes of
   * `chs`, just off the right edge, moving to just off the left edge in
   * `overTimes` seconds, at the rate that covers that distance in that time.
   */
  predicate Launched(e: Live, cfg: Config, chs: seq<Channel>, item: Item, inp: DispatchInput)
  {
    && e.item == item
    && OnLane(chs, e)
    && e.right == -inp.width
    && e.translateX == -(inp.width + inp.bodyWidth)
    && e.duration == cfg.overTimes
    && e.rate * cfg.overTimes == inp.width + inp.bodyWidth
  }

  /** The element `insertBarrageInDom` makes of `item` on lane `lane`. */
  function Place(cfg: Config, chs: seq<Channel>, lane: nat, item: Item, inp: DispatchInput): (e: Live)
    requires lane < |chs|
    requires cfg.overTimes != 0.0
    ensures e.channel == lane + 1
    ensures Launched(e, cfg, chs, item, inp)
  {
    Live(item, chs[lane].top, -inp.width, -inp.width - inp.bodyWidth, cfg.overTimes, lane + 1,
         (inp.width + inp.bodyWidth) / cfg.overTimes)
  }

  /**
   * `insertBarrageInDom`: when an item waits, the first one in the list is
   * placed on a freshly picked lane, other than the last one picked, and is
   * removed from the list. With nothing pending the state is unchanged.
   */
  function Dispatch(s: State, inp: DispatchInput): (r: State)
    requires Valid(s)
    requires Dispatchable(s, inp)
    ensures Valid(r)
    ensures s.pending == [] ==> r == s
    ensures s.pending != [] ==>
      && r.opts == s.opts && r.channels == s.channels && r.timerArmed == s.timerArmed
      && r.pending == s.pending[1..]
      && |r.live| == |s.live| + 1
      && r.live[..|s.live|] == s.live
      && Launched(r.live[|s.live|], s.opts.value, s.channels, s.pending[0], inp)
      && Accepted(s.lastRandom, r.live[|s.live|].channel - 1)
      && r.lastRandom == Some(r.live[|s.live|].channel - 1)
  {
    if s.pending == [] then s
    else
      var cfg := s.opts.value;
      var p := PickLane(LaneCount(cfg), s.lastRandom, inp.draws);
      var e := Place(cfg, s.channels, p.lane, s.pending[0], inp);
      var r := s.(pending := s.pending[1..], lastRandom := Some(p.lane), live := s.live + [e]);
      assert forall k :: 0 <= k < |r.live| ==> OnLane(r.channels, r.live[k]) by {
        forall k | 0 <= k < |r.live|
          ensures OnLane(r.channels, r.live[k])
        {
          if k < |s.live| {
            assert r.live[k] == s.live[k];
          }
        }
      }
      r
  }

  /**
   * One firing of the timer set by `createTimeOut`: the handle is dropped, one
   * dispatch is attempted and the timer is armed again, whether or not an
   * item was dispatched. Only an armed timer fires.
   */
  function Tick(s: State, inp: DispatchInput): (r: State)
    requires Valid(s)
    requires s.timerArmed
    requires Dispatchable(s, inp)
    ensures Valid(r)
    ensures r.timerArmed
    ensures s.pending == [] ==> r == s
    ensures s.pending != [] ==> r.pending == s.pending[1..] && |r.live| == |s.live| + 1
  {
    Dispatch(s.(timerArmed := false), inp).(timerArmed := true)
  }

  /** `barrageStart`: any pending timer is cleared and a single new one is armed. */
  function Start(s: State): (r: State)
    ensures r.timerArmed
    ensures r.(timerArmed := s.timerArmed) == s
    ensures Valid(s) ==> Valid(r)
  {
    s.(timerArmed := true)
  }

  /** Every element moved down by `dis`; nothing else about it changes. */
  function ShiftAll(live: seq<Live>, dis: real): (r: seq<Live>)
    ensures |r| == |live|
    ensures forall k :: 0 <= k < |live| ==> r[k] == live[k].(top := live[k].top + dis)
  {
    seq(|live|, k requires 0 <= k < |live| => live[k].(top := live[k].top + dis))
  }

  /**
   * The first half of `updateSafeArea`: the timer is cleared, the new safe
   * area is stored, the lanes are rebuilt and every placed element's top moves
   * by the difference between the new and the old safe area.
   */
  function Reconcile(s: State, newSafeArea: real): (r: State)
    requires Valid(s)
    ensures Valid(r)
    ensures !r.timerArmed
    ensures r.pending == s.pending && r.lastRandom == s.lastRandom
    ensures |r.channels| == |s.channels| && |r.live| == |s.live|
    ensures s.opts.Some? ==>
      && r.opts == Some(s.opts.value.(safeArea := newSafeArea))
      && (forall i :: 0 <= i < |s.channels| ==>
            r.channels[i].top == s.channels[i].top + (newSafeArea - s.opts.value.safeArea))
      && (forall k :: 0 <= k < |s.live| ==>
            r.live[k] == s.live[k].(top := s.live[k].top + (newSafeArea - s.opts.value.safeArea)))
    ensures s.opts.None? ==> r == s.(timerArmed := false)
  {
    match s.opts
    case None => s.(timerArmed := false)
    case Some(cfg) =>
      var cfg' := cfg.(safeArea := newSafeArea);
      var dis := newSafeArea - cfg.safeArea;
      RebuildShiftsLanes(cfg, newSafeArea);
      var r := s.(opts := Some(cfg'), channels := ChannelTable(cfg'), timerArmed := false,
                  live := ShiftAll(s.live, dis));
      assert forall k :: 0 <= k < |r.live| ==> OnLane(r.channels, r.live[k]) by {
        forall k | 0 <= k < |r.live|
          ensures OnLane(r.channels, r.live[k])
        {
          assert OnLane(s.channels, s.live[k]);
        }
      }
      r
  }

  /**
   * `updateSafeArea`: the reconciliation above, then one immediate dispatch
   * attempt on the rebuilt lanes, then the timer armed again.
   */
  function UpdateSafeArea(s: State, newSafeArea: real, inp: DispatchInput): (r: State)
    requires Valid(s)
    requires Dispatchable(s, inp)
    ensures Valid(r)
    ensures r.timerArmed
    ensures s.opts.Some? ==>
      var dis := newSafeArea - s.opts.value.safeArea;
      && r.opts == Some(s.opts.value.(safeArea := newSafeArea))
      && |r.channels| == |s.channels|
      && (forall i :: 0 <= i < |s.channels| ==> r.channels[i].top == s.channels[i].top + dis)
      && |r.live| >= |s.live|
      && (forall k :: 0 <= k < |s.live| ==> r.live[k] == s.live[k].(top := s.live[k].top + dis))
    ensures s.pending == [] ==> r.pending == [] && |r.live| == |s.live| && r.lastRandom == s.lastRandom
    ensures s.pending != [] ==>
      && r.pending == s.pending[1..]
      && |r.live| == |s.live| + 1
      && r.live[|s.live|].item == s.pending[0]
      && r.lastRandom == Some(r.live[|s.live|].channel - 1)
      && Accepted(s.lastRandom, r.live[|s.live|].channel - 1)
  {
    Dispatch(Reconcile(s, newSafeArea), inp).(timerArmed := true)
  }

  /**
   * The element sent on from where it stands: towards just off the left edge
   * (`-(width + bodyWidth)`), for the seconds its remaining distance
   * `left + width` takes at its recorded rate. Lane, position and rate stay.
   */
  function Resume(e: Live, left: real, width: real, bodyWidth: real): (r: Live)
    requires e.rate != 0.0
    ensures r.(translateX := e.translateX, duration := e.duration) == e
    ensures r.translateX == -(width + bodyWidth)
    ensures r.duration * e.rate == left + width
  {
    e.(translateX := -width - bodyWidth, duration := (left + width) / e.rate)
  }

  /** The list without its `i`-th element, the others kept in order. */
  function RemoveAt(live: seq<Live>, i: nat): (r: seq<Live>)
    requires i < |live|
    ensures |r| == |live| - 1
    ensures forall k :: 0 <= k < i ==> r[k] == live[k]
    ensures forall k :: i <= k < |r| ==> r[k] == live[k + 1]
    ensures multiset(r) + multiset{live[i]} == multiset(live)
  {
    assert live == live[..i] + [live[i]] + live[i + 1..];
    live[..i] + live[i + 1..]
  }

  /**
   * `handleTransitionend` on the `i`-th placed element, whose bounding box
   * reads `left` and `width`: while its left edge is still inside
   * (`left > 0`) it is resumed; otherwise its listener is detached and it is
   * removed.
   */
  function TransitionEnd(s: State, i: nat, left: real, width: real, bodyWidth: real): (r: State)
    requires i < |s.live|
    requires left > 0.0 ==> s.live[i].rate != 0.0
    ensures r.(live := s.live) == s
    ensures left > 0.0 ==> r.live == s.live[i := Resume(s.live[i], left, width, bodyWidth)]
    ensures left <= 0.0 ==> r.live == RemoveAt(s.live, i)
    ensures Valid(s) ==> Valid(r)
  {
    if left > 0.0 then
      var live := s.live[i := Resume(s.live[i], left, width, bodyWidth)];
      assert forall k :: 0 <= k < |live| ==>
        live[k].channel == s.live[k].channel && live[k].top == s.live[k].top;
      s.(live := live)
    else
      var live := RemoveAt(s.live, i);
      assert forall k :: 0 <= k < |live| ==> live[k] in s.live;
      s.(live := live)
  }

  /**
   * `destroy`: the timer is cleared, every placed element is detached and
   * removed, and both option objects are emptied, which also drops the lanes
   * and the pending list. `lastRandom` is left as it was.
   */
  function Destroy(s: State): (r: State)
    ensures Valid(r)
    ensures !r.timerArmed && r.pending == [] && r.live == [] && r.channels == [] && r.opts == None
    ensures r.lastRandom == s.lastRandom
  {
    State(None, [], [], s.lastRandom, false, [])
  }
}
