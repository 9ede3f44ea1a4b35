# Barrage lane allocation and playback scheduling, in Dafny

A model of the scheduling core of the `Barrage` class in `barrage.js`. A
barrage is a stream of bullet comments that scroll from right to left
across a container, each on one of a fixed number of horizontal lanes.
The model covers these parts of the class:

- the lane ("channel") table that `initChannel`/`createChannel` build;
- the pending list that `createBarrage` fills and `insertBarrageInDom` drains;
- the lane picker `getRandomChannelIndex`, which redraws until the lane
  differs from the previous one;
- the dispatch timer `createTimeOut`;
- the safe-area update `updateSafeArea`;
- the transition-end handler `handleTransitionend`;
- the teardown in `destroy`/`clearbarrage`;
- the camelCase to kebab-case conversion of style keys in `setStyleAndAttribute`.

All state is one immutable value, `Engine.State`:
`{opts, channels, pending, lastRandom, timerArmed, live}`. Each call, timer
firing and DOM event is a pure function from one state to the next. The
timer is the flag `timerArmed`, and a firing is the explicit step `Tick`.
Other inputs are passed as parameters:

- the random source is a sequence of draws, each already floored into the
  lane range;
- the element width, the page width and the bounding rectangle read by the
  transition handler;
- the item payload.

Positions, rates and times are `real`.

Modules:

- `StyleKeys`: the style-key conversion.
- `Channels`: the options and the lane table.
- `LanePicker`: the rejection-sampling picker.
- `Engine`: the state and its steps.
- `Scheduler`: arbitrary runs of steps, with what holds over a whole run.
- `Wrappers`: `Option`.

Facts about the code that the model keeps:

- **The pending list is a stack.** `createBarrage` uses `unshift`, and
  dispatch takes `doms[0]` and then `shift`s. So the newest item is placed
  first (`Scheduler.LastInFirstOut`).
- **No special case for one lane.** With one lane, the first dispatch
  succeeds. The second recurses for ever, because the only possible draw
  is the previous lane. In the model this is a precondition
  (`LanePicker.LaneCountOk`), and `LanePicker.SingleUsedLaneHangs` shows
  that no draw is ever accepted.
- **With no lanes, a dispatch throws.** Dispatching a pending item reads
  `channels[0].top` of an empty table. The model excludes this case by the
  same precondition.
- **No stop operation.** The code has no `stop`. `barrageStart`
  (`Engine.Start`) and each timer firing re-arm the timer; `updateSafeArea`
  clears it and then re-arms it (`Engine.Reconcile`, `Engine.UpdateSafeArea`);
  `destroy` clears it.
- **`destroy` keeps `lastRandom`.** `destroy` does not reset
  `lastRandom`, and the model keeps it too. After `destroy` the option
  objects are empty, so `createBarrage` drops its item:
  `const { doms = [] }` gives a fresh local list (`Scheduler.DestroyedStaysEmpty`).

The invariant `Engine.Valid` holds in every reachable state:

- the lane table equals a fresh rebuild from the current options;
- `lastRandom` is a lane index;
- every placed element sits exactly on the lane its `data-channel` names.

`Scheduler.Apply` proves that every step preserves the invariant. This
includes the safe-area update, which moves the lanes and the placed
elements by the same amount.

## Model

| member | source | states |
|---|---|---|
| `StyleKeys.KebabKey` | barrage.js:189 | for ASCII keys, the converted key is longer than the key by exactly its number of ASCII capitals and contains no ASCII capital |
| `StyleKeys.KebabKeyKeepsLowerCase` | barrage.js:189 | an ASCII key without capitals is returned unchanged |
| `StyleKeys.KebabKeyIdempotent` | barrage.js:189 | converting an already converted key changes nothing |
| `StyleKeys.CamelKeyInvertsKebabKey` | barrage.js:189 | for ASCII keys without a dash, turning every `-x` back into `X` recovers the original camelCase key, so the conversion loses nothing |
| `StyleKeys.KebabKeyConcat` | barrage.js:189 | on ASCII keys the conversion works character by character: converting a concatenation concatenates the conversions |
| `StyleKeys.FontSizeKey` | barrage.js:189 | `fontSize` becomes `font-size` |
| `Channels.Build` | barrage.js:81-86 | `createChannel` applied k times to an empty table gives k lanes, and lane i has top `safeArea + i * (barrageHeight + barrageSafeArea)` |
| `Channels.InitChannel` | barrage.js:70-76 | the table is rebuilt from empty with exactly `maxBarrageNum` lanes (none for a non-positive count); lane 0 is at the safe area and each later lane is one height plus one gap below the previous one |
| `Channels.TopsIncreasing` | barrage.js:81-86 | with a positive height plus gap, lane tops strictly increase with the lane index |
| `Channels.RebuildShiftsLanes` | barrage.js:92-97 | rebuilding with a new safe area keeps the lane count and moves every lane by `newSafeArea - safeArea` |
| `Channels.DefaultTable` | barrage.js:36-45 | the default options (3 lanes, height 40, gap 10, safe area 0) give lane tops 0, 50 and 100 |
| `LanePicker.PickLane` | barrage.js:249-258 | the picked lane is in `[0, maxBarrageNum)` and differs from `lastRandom`; it is the first draw that differs, every draw before it equals `lastRandom`, and exactly the draws up to it are used |
| `LanePicker.SingleUsedLaneHangs` | barrage.js:251-253 | with one lane that was already picked, no draw is ever accepted, so the recursion does not end |
| `LanePicker.TwoDistinctDrawsSuffice` | barrage.js:251-257 | two different draws always contain one that is accepted, whatever the previous lane was |
| `LanePicker.TwoDistinctDrawsNeedTwoLanes` | barrage.js:249-251 | two different in-range draws imply at least two lanes, which is the condition for the pick to finish |
| `Engine.Create` | barrage.js:35-59 | a new instance has the full lane table, nothing pending or placed, no previous lane and no timer, and satisfies the invariant |
| `Engine.Enqueue` | barrage.js:199-202 | the new item goes to the front of the pending list, and the rest keep their order; after `destroy` the item is dropped; nothing else changes |
| `Engine.Place` | barrage.js:222-230 | the placed element has `data-channel` = lane + 1, its top is that lane's top, it starts at `right = -width`, it moves to `-(width + bodyWidth)` over `overTimes` seconds, and `data-rate * overTimes = width + bodyWidth` |
| `Engine.Dispatch` | barrage.js:214-233 | with nothing pending the state is unchanged; otherwise only the head of the pending list is removed and placed, on a lane other than `lastRandom`, which becomes that lane; earlier elements are untouched and the invariant is kept |
| `Engine.Tick` | barrage.js:238-247 | a timer firing places at most one item and leaves the timer armed whether or not it placed one |
| `Engine.Start` | barrage.js:207-209 | starting arms a single timer and changes nothing else |
| `Engine.Reconcile` | barrage.js:92-103 | the timer is cleared, the safe area is stored, every lane moves by `dis = newSafeArea - safeArea`, and every placed element moves down by `dis`; its rate, transform, duration and lane stay the same; the invariant is kept |
| `Engine.UpdateSafeArea` | barrage.js:92-106 | after the update, every earlier element and every lane has moved by `dis`, and exactly one immediate dispatch attempt has been made on the rebuilt lanes: one item is placed if any is pending, none otherwise; the timer ends up armed |
| `Engine.Resume` | barrage.js:139-145 | a resumed element heads to `-(width + bodyWidth)`, and its duration times its recorded rate equals the remaining distance `left + width`; lane, top and rate are unchanged |
| `Engine.RemoveAt` | barrage.js:146-149 | removing an element keeps all the others in their order; the multiset of elements loses exactly that one |
| `Engine.TransitionEnd` | barrage.js:136-150 | an element with `left > 0` is resumed in place; otherwise it is removed; only the placed elements change, and the invariant is kept |
| `Engine.Destroy` | barrage.js:274-281 | after `destroy` the timer is disarmed and the pending list, the placed elements, the lane table and the options are all gone, but `lastRandom` is kept |
| `Scheduler.Apply` | barrage.js:92-281 | every call, timer firing and transition-end event preserves the invariant; an event that places an element chooses a lane other than `lastRandom` and records it there; any other event leaves `lastRandom` alone |
| `Scheduler.RunRemembersLastLane` | barrage.js:249-258 | over any run, the first placed element avoids the lane picked before the run, and `lastRandom` ends as the lane of the last placed element |
| `Scheduler.NoLaneTwiceInARow` | barrage.js:249-258 | over any run of events, no two consecutively placed elements share a lane |
| `Scheduler.RunTicks` | barrage.js:238-247 | however many times the timer fires, as long as each firing's draws let its pick finish, it stays armed, the options are unchanged and the invariant holds |
| `Scheduler.SpreadTicksRunnable` | barrage.js:249-258 | if every firing's draws hold two different lanes, on an instance with a non-zero traversal time, every firing's pick finishes |
| `Scheduler.TickPlacesHead` | barrage.js:214-231 | a firing with an item pending, on any lane count and draws that let the pick finish, removes the head of the list and appends an element carrying it |
| `Scheduler.Drain` | barrage.js:214-247 | with no new arrivals, m firings (m ≤ k pending) place exactly the first m pending items, one per firing and in list order, and leave the others pending; so k items drain in exactly k firings |
| `Scheduler.EnqueueAll` | barrage.js:199-202 | enqueuing items one after another leaves them in reverse order in front of the pending list |
| `Scheduler.LastInFirstOut` | barrage.js:199-232 | items enqueued onto an empty pending list are placed newest first |
| `Scheduler.DestroyIdempotent` | barrage.js:274-281 | a second `destroy` leaves the same empty, disarmed state as the first |
| `Scheduler.DestroyedStaysEmpty` | barrage.js:199-202 | after `destroy`, no sequence of events places an element or leaves anything pending |
| `Scheduler.SafeAreaScenario` | barrage.js:92-103 | with the defaults, raising the safe area from 0 to 20 moves an element at top 0 to top 20, leaves its motion unchanged, and moves lane 0 to 20 |
| `Scheduler.ResumeScenario` | barrage.js:141-145 | an element at `left = 50`, `width = 100`, rate 25 continues for 6 seconds |

## Left out

- Stylesheet injection (`insetStyleToHead`, the `styleText` constant) is left out. It is static text plus DOM calls.
- Element construction and markup (`creatElementNode`, `createBarrageItemDom`, the default avatar URL) is left out. So are the font size, colour and extra-style options. A pending item is its payload only. The initial `top = -barrageHeight` of an element that is not yet placed is not tracked, because dispatch always overwrites it.
- Container resolution through `getVarType`/`getElementById` is not modelled. `getVarType` is not part of this model. Neither is the instance whose container cannot be found: it has no lane table, and its first dispatch would throw.
- Real timers are left out. The 2000 ms period and `clearTimeout`/`setTimeout` become the `timerArmed` flag plus explicit `Tick` steps. Wall-clock time is not modelled.
- `Math.random` is a parameter: a sequence of draws already floored into `[0, maxBarrageNum)`.
- The DOM geometry (`clientWidth`, `document.body.clientWidth`, `getBoundingClientRect`) is passed in as parameters.
- The event propagation calls (`stopPropagation`, `preventDefault`) are left out.
- `style.top` is a number. The `px` suffix and the string parsing are left out.
- `querySelectorAll` is document-wide. The model treats the placed elements of this one instance as the whole collection, so elements of other instances on the same page are not modelled.
- Floating-point arithmetic is modelled with exact `real`s. JavaScript's `Infinity`/`NaN` are not modelled; the inputs that would produce them are excluded by preconditions:
  - A dispatch requires `overTimes != 0`.
  - A resume requires a non-zero recorded rate.
- A non-integer `maxBarrageNum` is not modelled: it is an `int`.
- CSS transition semantics are left out. Only the transform target and the duration that are set are modelled.
- `LanePicker.PickLane` works on a finite sequence of draws that must contain an accepted one. It does not model the probabilistic fact that such a draw eventually comes when there are at least two lanes.
- `Engine.Tick` states only that at most one item is placed and the timer stays armed. The exact effect on the element is stated by `Engine.Dispatch`, which it calls.
- `Scheduler.Drain` and `Scheduler.LastInFirstOut` assume that every firing's pick finishes (`Scheduler.TicksRunnable`). `Scheduler.SpreadTicksRunnable` shows that draws holding two different lanes in every firing are enough.
- `StyleKeys.KebabKey`: only ASCII `A`-`Z` are lower-cased. JavaScript's `toLowerCase` also lower-cases non-ASCII capitals (`Ä` to `ä`), and turns a final `Σ` into `ς`, so the contract holds for ASCII keys only.
- `StyleKeys.KebabKeyKeepsLowerCase`: holds for ASCII keys only, because only ASCII letters are lower-cased in the model.
- `StyleKeys.CamelKeyInvertsKebabKey`: holds for ASCII keys only, because only ASCII letters are lower-cased in the model.
- `StyleKeys.KebabKeyConcat`: holds for ASCII keys only, because only ASCII letters are lower-cased in the model; with context-sensitive final sigma the real conversion is not character by character.
