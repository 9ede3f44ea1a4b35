/**
 * Runs of the engine: any interleaving of the public calls, timer ticks and
 * transition-end events, and what holds over a whole run.
 */
module Scheduler {

  import opened Wrappers
  import opened Channels
  import opened LanePicker
  import opened Engine

  /** One event the instance reacts to. */
  datatype Op =
    | EnqueueOp(item: Item)
    | TickOp(inp: DispatchInput)
    | StartOp
    | UpdateSafeAreaOp(newSafeArea: real, inp: DispatchInput)
    | TransitionEndOp(index: nat, left: real, width: real, bodyWidth: real)
    | DestroyOp

  /** The event can happen in `s` and the step it triggers finishes. */
  predicate Enabled(s: State, op: Op)
  {
    match op
    case EnqueueOp(_) => true
    case TickOp(inp) => s.timerArmed && Dispatchable(s, inp)
    case StartOp => true
    case UpdateSafeAreaOp(_, inp) => Dispatchable(s, inp)
    case TransitionEndOp(i, left, _, _) => i < |s.live| && (left > 0.0 ==> s.live[i].rate != 0.0)
    case DestroyOp => true
  }

  /** The state after a step and the `data-channel` of the element it placed, if any. */
  datatype Outcome = Outcome(next: State, placed: Option<int>)

  function Apply(s: State, op: Op): (r: Outcome)
    requires Valid(s)
    requires Enabled(s, op)
    ensures Valid(r.next)
    ensures r.placed.None? ==> r.next.lastRandom == s.lastRandom
    ensures r.placed.Some? ==>
      && Accepted(s.lastRandom, r.placed.value - 1)
      && r.next.lastRandom == Some(r.placed.value - 1)
  {
    match op
    case EnqueueOp(item) => Outcome(Enqueue(s, item), None)
    case TickOp(inp) =>
      var n := Tick(s, inp);
      Outcome(n, if s.pending == [] then None else Some(n.live[|s.live|].channel))
    case StartOp => Outcome(Start(s), None)
    case UpdateSafeAreaOp(v, inp) =>
      var n := UpdateSafeArea(s, v, inp);
      Outcome(n, if s.pending == [] then None else Some(n.live[|s.live|].channel))
    case TransitionEndOp(i, left, width, bodyWidth) =>
      Outcome(TransitionEnd(s, i, left, width, bodyWidth), None)
    case DestroyOp => Outcome(Destroy(s), None)
  }

  /** Every step of `ops`, taken in order from `s`, is enabled. */
  predicate Runnable(s: State, ops: seq<Op>)
    requires Valid(s)
    decreases |ops|
  {
    ops == [] || (Enabled(s, ops[0]) && Runnable(Apply(s, ops[0]).next, ops[1..]))
  }

  /** The final state of a run and the lanes (`data-channel` values) of the elements it placed, in order. */
  function Run(s: State, ops: seq<Op>): (r: (State, seq<int>))
    requires Valid(s)
    requires Runnable(s, ops)
    ensures Valid(r.0)
    decreases |ops|
  {
    if ops == [] then (s, [])
    else
      var o := Apply(s, ops[0]);
      var t := Run(o.next, ops[1..]);
      (t.0, (if o.placed.Some? then [o.placed.value] else []) + t.1)
  }

  /** No two neighbours of `lanes` are equal. */
  predicate NoAdjacentRepeat(lanes: seq<int>)
  {
    forall j :: 0 <= j < |lanes| - 1 ==> lanes[j] != lanes[j + 1]
  }

  /** The lane lists a run builds up: each step's own lane, if any, in front of the rest of the run's. */
  lemma {:induction false} ConsNoAdjacentRepeat(x: int, lanes: seq<int>)
    requires NoAdjacentRepeat(lanes)
    requires lanes != [] ==> x != lanes[0]
    ensures NoAdjacentRepeat([x] + lanes)
  {
    var l := [x] + lanes;
    forall j | 0 <= j < |l| - 1
      ensures l[j] != l[j + 1]
    {
      if j > 0 {
        assert l[j] == lanes[j - 1] && l[j + 1] == lanes[j];
      }
    }
  }

  /** One step of a run: the step's own lane, if any, in front of the rest of the run's. */
  lemma RunStep(s: State, ops: seq<Op>)
    requires Valid(s)
    requires Runnable(s, ops)
    requires ops != []
    ensures Run(s, ops).0 == Run(Apply(s, ops[0]).next, ops[1..]).0
    ensures Apply(s, ops[0]).placed.Some? ==>
      Run(s, ops).1 == [Apply(s, ops[0]).placed.value] + Run(Apply(s, ops[0]).next, ops[1..]).1
    ensures Apply(s, ops[0]).placed.None? ==>
      Run(s, ops).1 == Run(Apply(s, ops[0]).next, ops[1..]).1
  {
    assert [] + Run(Apply(s, ops[0]).next, ops[1..]).1 == Run(Apply(s, ops[0]).next, ops[1..]).1;
  }

  /**
   * The lane remembered after placing elements on `lanes` (`data-channel`
   * values), starting from `before`.
   */
  function Remembered(before: Option<int>, lanes: seq<int>): Option<int>
  {
    if lanes == [] then before else Some(lanes[|lanes| - 1] - 1)
  }

  /**
   * The first element a run places avoids the lane chosen before the run,
   * and the lane of the last one it places is remembered as `lastRandom`.
   */
  lemma {:induction false} RunRemembersLastLane(s: State, ops: seq<Op>)
    requires Valid(s)
    requires Runnable(s, ops)
    ensures Run(s, ops).1 != [] ==> Accepted(s.lastRandom, Run(s, ops).1[0] - 1)
    ensures Run(s, ops).0.lastRandom == Remembered(s.lastRandom, Run(s, ops).1)
    decreases |ops|
  {
    if ops != [] {
      var o := Apply(s, ops[0]);
      var t := Run(o.next, ops[1..]);
      RunRemembersLastLane(o.next, ops[1..]);
      RunStep(s, ops);
      if o.placed.Some? {
        RememberedCons(s.lastRandom, o.placed.value, t.1);
      }
    }
  }

  lemma RememberedCons(before: Option<int>, x: int, lanes: seq<int>)
    ensures ([x] + lanes)[0] == x
    ensures Remembered(before, [x] + lanes) == Remembered(Some(x - 1), lanes)
  {
    if lanes != [] {
      assert ([x] + lanes)[|lanes|] == lanes[|lanes| - 1];
    }
  }

  /** No two elements placed one after the other share a lane, whatever happens between them. */
  lemma {:induction false} NoLaneTwiceInARow(s: State, ops: seq<Op>)
    requires Valid(s)
    requires Runnable(s, ops)
    ensures NoAdjacentRepeat(Run(s, ops).1)
    decreases |ops|
  {
    if ops != [] {
      var o := Apply(s, ops[0]);
      var t := Run(o.next, ops[1..]);
      NoLaneTwiceInARow(o.next, ops[1..]);
      RunRemembersLastLane(o.next, ops[1..]);
      RunStep(s, ops);
      if o.placed.Some? {
        ConsNoAdjacentRepeat(o.placed.value, t.1);
      }
    }
  }

  /** The items of placed elements, in placement order. */
  function Items(live: seq<Live>): (r: seq<Item>)
    ensures |r| == |live|
    ensures forall k :: 0 <= k < |live| ==> r[k] == live[k].item
  {
    seq(|live|, k requires 0 <= k < |live| => live[k].item)
  }

  /** Random draws that finish a pick whatever lane came before: two different in-range draws. */
  predicate Spread(n: int, draws: seq<int>)
  {
    InRange(n, draws) && exists i, j :: 0 <= i < |draws| && 0 <= j < |draws| && draws[i] != draws[j]
  }

  lemma SpreadDispatchable(s: State, inp: DispatchInput)
    requires s.opts.Some? && s.opts.value.overTimes != 0.0
    requires Spread(LaneCount(s.opts.value), inp.draws)
    ensures Dispatchable(s, inp)
  {
    var i, j :| 0 <= i < |inp.draws| && 0 <= j < |inp.draws| && inp.draws[i] != inp.draws[j];
    TwoDistinctDrawsSuffice(LaneCount(s.opts.value), s.lastRandom, inp.draws, i, j);
    TwoDistinctDrawsNeedTwoLanes(LaneCount(s.opts.value), s.lastRandom, inp.draws, i, j);
  }

  /** Every firing of a run of `|inps|` timer firings, one per input, can finish its dispatch. */
  predicate TicksRunnable(s: State, inps: seq<DispatchInput>)
    requires Valid(s) && s.timerArmed
    decreases |inps|
  {
    inps == [] || (Dispatchable(s, inps[0]) && TicksRunnable(Tick(s, inps[0]), inps[1..]))
  }

  /** The timer firing once per input of `inps`, with nothing else happening in between. */
  function RunTicks(s: State, inps: seq<DispatchInput>): (r: State)
    requires Valid(s) && s.timerArmed
    requires TicksRunnable(s, inps)
    ensures Valid(r) && r.timerArmed && r.opts == s.opts
    decreases |inps|
  {
    if inps == [] then s else RunTicks(Tick(s, inps[0]), inps[1..])
  }

  /** All draws of `inps` finish a pick whatever lane came before. */
  predicate AllSpread(n: int, inps: seq<DispatchInput>)
  {
    forall k :: 0 <= k < |inps| ==> Spread(n, inps[k].draws)
  }

  /**
   * Firings whose draws each hold two different lanes can all finish, on an
   * instance with a non-zero traversal time.
   */
  lemma {:induction false} SpreadTicksRunnable(s: State, inps: seq<DispatchInput>)
    requires Valid(s) && s.timerArmed
    requires s.opts.Some? && s.opts.value.overTimes != 0.0
    requires AllSpread(LaneCount(s.opts.value), inps)
    ensures TicksRunnable(s, inps)
    decreases |inps|
  {
    if inps != [] {
      SpreadDispatchable(s, inps[0]);
      var n := Tick(s, inps[0]);
      assert AllSpread(LaneCount(n.opts.value), inps[1..]) by {
        assert forall k :: 0 <= k < |inps| - 1 ==> inps[1..][k] == inps[k + 1];
      }
      SpreadTicksRunnable(n, inps[1..]);
    }
  }

  lemma SliceSplit<T>(p: seq<T>, m: nat)
    requires 1 <= m <= |p|
    ensures p[1..][m - 1..] == p[m..]
    ensures p[..m] == [p[0]] + p[1..][..m - 1]
  {
  }

  lemma ConcatAssoc<T>(a: seq<T>, b: seq<T>, c: seq<T>)
    ensures a + b + c == a + (b + c)
  {
  }

  /** A firing with an item pending places that item at the end of the placed elements. */
  lemma TickPlacesHead(s: State, inp: DispatchInput)
    requires Valid(s) && s.timerArmed && s.pending != []
    requires Dispatchable(s, inp)
    ensures Tick(s, inp).pending == s.pending[1..]
    ensures Items(Tick(s, inp).live) == Items(s.live) + [s.pending[0]]
  {
    var n := Tick(s, inp);
    assert forall k :: 0 <= k < |s.live| ==> n.live[k] == s.live[k];
    assert Items(n.live) == Items(s.live) + [s.pending[0]];
  }

  lemma RunTicksStep(s: State, inps: seq<DispatchInput>)
    requires Valid(s) && s.timerArmed
    requires TicksRunnable(s, inps)
    requires inps != []
    ensures Dispatchable(s, inps[0])
    ensures TicksRunnable(Tick(s, inps[0]), inps[1..])
    ensures RunTicks(s, inps) == RunTicks(Tick(s, inps[0]), inps[1..])
  {
  }

  /**
   * With the timer armed and no new items, `m` ticks place exactly the first
   * `m` pending items, one per tick and in list order, and leave the rest
   * pending. So `k` pending items drain in exactly `k` ticks.
   */
  lemma {:induction false} Drain(s: State, inps: seq<DispatchInput>)
    requires Valid(s) && s.timerArmed
    requires TicksRunnable(s, inps)
    requires |inps| <= |s.pending|
    ensures RunTicks(s, inps).pending == s.pending[|inps|..]
    ensures Items(RunTicks(s, inps).live) == Items(s.live) + s.pending[..|inps|]
    decreases |inps|
  {
    if inps != [] {
      RunTicksStep(s, inps);
      TickPlacesHead(s, inps[0]);
      var n := Tick(s, inps[0]);
      var rest := inps[1..];
      Drain(n, rest);
      SliceSplit(s.pending, |inps|);
      ConcatAssoc(Items(s.live), [s.pending[0]], s.pending[1..][..|inps| - 1]);
    }
  }

  /** The list in reverse order. */
  function Reverse<T>(xs: seq<T>): (r: seq<T>)
    ensures |r| == |xs|
    ensures forall k :: 0 <= k < |xs| ==> r[k] == xs[|xs| - 1 - k]
  {
    if xs == [] then [] else Reverse(xs[1..]) + [xs[0]]
  }

  /** `createBarrage` called for each of `xs` in turn. */
  function EnqueueAll(s: State, xs: seq<Item>): (r: State)
    ensures s.opts.Some? ==> r.pending == Reverse(xs) + s.pending
    ensures r.(pending := s.pending) == s
    ensures Valid(s) ==> Valid(r)
    decreases |xs|
  {
    if xs == [] then s else EnqueueAll(Enqueue(s, xs[0]), xs[1..])
  }

  /**
   * Items enqueued while nothing was pending are placed newest first: the
   * pending list is a stack, not a queue.
   */
  lemma LastInFirstOut(s: State, xs: seq<Item>, inps: seq<DispatchInput>)
    requires Valid(s) && s.timerArmed && s.pending == [] && s.opts.Some?
    requires |inps| == |xs|
    requires TicksRunnable(EnqueueAll(s, xs), inps)
    ensures RunTicks(EnqueueAll(s, xs), inps).pending == []
    ensures Items(RunTicks(EnqueueAll(s, xs), inps).live) == Items(s.live) + Reverse(xs)
  {
    var e := EnqueueAll(s, xs);
    assert e.pending == Reverse(xs);
    Drain(e, inps);
  }

  /** Destroying twice leaves the same empty, disarmed state as destroying once. */
  lemma DestroyIdempotent(s: State)
    ensures Destroy(Destroy(s)) == Destroy(s)
    ensures !Destroy(s).timerArmed && Destroy(s).pending == [] && Destroy(s).live == []
  {
  }

  /** After destruction no event places anything: the run's lanes are empty. */
  lemma {:induction false} DestroyedStaysEmpty(s: State, ops: seq<Op>)
    requires Valid(s) && s.opts.None?
    requires Runnable(s, ops)
    ensures Run(s, ops).1 == []
    ensures Run(s, ops).0.pending == [] && Run(s, ops).0.live == []
    decreases |ops|
  {
    if ops != [] {
      var o := Apply(s, ops[0]);
      assert o.placed == None;
      assert o.next.opts.None?;
      DestroyedStaysEmpty(o.next, ops[1..]);
    }
  }

  /** A safe area raised from 0 to 20 moves an element at top 0 to top 20 and leaves its motion alone. */
  lemma SafeAreaScenario(e: Live, inp: DispatchInput)
    requires e.top == 0.0 && e.channel == 1
    ensures var s := State(Some(Defaults), ChannelTable(Defaults), [], None, true, [e]);
      && Valid(s)
      && var r := UpdateSafeArea(s, 20.0, inp);
         r.live == [e.(top := 20.0)] && r.channels[0].top == 20.0
  {
    DefaultTable();
  }

  /** An element at left 50, width 100 and rate 25 is resumed for 6 seconds. */
  lemma ResumeScenario(e: Live, bodyWidth: real)
    requires e.rate == 25.0
    ensures Resume(e, 50.0, 100.0, bodyWidth).duration == 6.0
  {
  }
}
