/**
 * The reasoning timer hook: a six-field view record, the start-time and timer
 * refs, the pending collapse timeout, the session store, and the dependency
 * values each effect last ran with.
 *
 * The hook is driven by renders. At each commit an effect runs only when one of its
 * dependencies differs from the last run, and the previous run's cleanup runs
 * first. The clock is an integer number of milliseconds passed in by the caller.
 * The interval and timeout callbacks are events the caller delivers.
 *
 * The pure step functions below define what each event does. The class
 * `ReasoningHook` does the same thing by updating its fields in place, and each of
 * its methods is proved equal to the matching step function.
 */
module ReasoningState {
  import opened Wrappers
  import opened Strings

  /** The auto-collapse timeout after a finish, in milliseconds. */
  const CollapseDelayMs: int := 5000

  /** The storage key is built from this many leading characters of the reasoning text. */
  const KeyPrefixLength: nat := 50

  /** The record held with `useState`; every `setState` replaces it. */
  datatype View = View(
    isLoading: bool,
    isExpanded: bool,
    showReasoned: bool,
    isCollapsed: bool,
    thinkingDuration: int,
    isThinking: bool)

  const InitialView := View(false, false, false, false, 0, false)

  /** What the start branch sets: all six fields are overwritten. */
  const ThinkingView := View(true, true, false, false, 0, true)

  /** The JSON object kept in session storage for one reasoning text. */
  datatype Stored = Stored(startTime: int, duration: int)

  type Storage = map<string, Stored>

  /**
   * The base64 encoding the key is built with. `None` means the encoder throws,
   * which `btoa` does on characters above U+00FF.
   */
  type Encoder = string -> Option<string>

  /** The dependency values of the restore effect, `[reasoning, isLoading]`. */
  datatype RestoreDeps = RestoreDeps(reasoning: string, isLoading: bool)

  /** The dependency values of the main effect, `[isLoading, reasoning, state.isThinking]`. */
  datatype MainDeps = MainDeps(isLoading: bool, reasoning: string, isThinking: bool)

  /**
   * The whole hook. `ticking` means the duration interval is installed.
   * `collapseAt` holds the deadline of the pending collapse timeout, if one is
   * pending. A dependency field holds `None` until that effect first runs.
   */
  datatype Hook = Hook(
    view: View,
    startTime: Option<int>,
    ticking: bool,
    collapseAt: Option<int>,
    storage: Storage,
    restoreDeps: Option<RestoreDeps>,
    mainDeps: Option<MainDeps>)

  /** The hook as first rendered, over whatever the session store already holds. */
  function Mounted(storage: Storage): Hook
  {
    Hook(InitialView, None, false, None, storage, None, None)
  }

  // ---------------------------------------------------------------- storage

  /** `reasoning.slice(0, 50)`. */
  function ReasoningPrefix(reasoning: string): (p: string)
    ensures |p| == if |reasoning| < KeyPrefixLength then |reasoning| else KeyPrefixLength
    ensures p == reasoning[..|p|]
  {
    if |reasoning| <= KeyPrefixLength then reasoning else reasoning[..KeyPrefixLength]
  }

  /** The namespace every storage key starts with. */
  const KeyNamespace := "reasoning-"

  /** `reasoning-${btoa(prefix)}`, or `None` when the encoder throws. */
  function StorageKey(reasoning: string, encode: Encoder): (k: Option<string>)
    ensures k.Some? <==> encode(ReasoningPrefix(reasoning)).Some?
    ensures k.Some? ==> StartsWith(k.value, KeyNamespace)
                        && k.value[|KeyNamespace|..] == encode(ReasoningPrefix(reasoning)).value
  {
    match encode(ReasoningPrefix(reasoning))
    case Some(e) => Some("reasoning-" + e)
    case None => None
  }

  /**
   * `getStoredReasoningData`. Empty reasoning is never looked up. A key that cannot be
   * built reads as "no data", and so does a missing entry.
   */
  function GetStored(storage: Storage, reasoning: string, encode: Encoder): (d: Option<Stored>)
    ensures reasoning == "" ==> d == None
    ensures StorageKey(reasoning, encode) == None ==> d == None
    ensures d.Some? ==> StorageKey(reasoning, encode).Some? && StorageKey(reasoning, encode).value in storage
                        && storage[StorageKey(reasoning, encode).value] == d.value
    ensures reasoning != "" && StorageKey(reasoning, encode).Some? && StorageKey(reasoning, encode).value in storage
            ==> d == Some(storage[StorageKey(reasoning, encode).value])
  {
    if reasoning == "" then None
    else match StorageKey(reasoning, encode)
      case None => None
      case Some(k) => if k in storage then Some(storage[k]) else None
  }

  /**
   * `setStoredReasoningData`. Empty reasoning is never stored. A key that cannot be
   * built, or a store that refuses the write (`writable` false), leaves the store as
   * it was.
   */
  function SetStored(storage: Storage, reasoning: string, data: Stored, encode: Encoder, writable: bool): (s: Storage)
    ensures reasoning == "" || !writable || StorageKey(reasoning, encode) == None ==> s == storage
    ensures s.Keys <= storage.Keys + (if StorageKey(reasoning, encode).Some? then {StorageKey(reasoning, encode).value} else {})
  {
    if reasoning == "" || !writable then storage
    else match StorageKey(reasoning, encode)
      case None => storage
      case Some(k) => storage[k := data]
  }

  /** Reasoning texts that agree on their first 50 characters share an entry. */
  lemma KeyDependsOnlyOnPrefix(r1: string, r2: string, encode: Encoder)
    requires r1[..if |r1| < KeyPrefixLength then |r1| else KeyPrefixLength]
          == r2[..if |r2| < KeyPrefixLength then |r2| else KeyPrefixLength]
    ensures StorageKey(r1, encode) == StorageKey(r2, encode)
  {
    assert ReasoningPrefix(r1) == ReasoningPrefix(r2);
  }

  /** What is stored for a reasoning text is what a later lookup for it finds. */
  lemma StoreThenLookup(storage: Storage, r: string, r2: string, data: Stored, encode: Encoder)
    requires r != "" && ReasoningPrefix(r2) == ReasoningPrefix(r)
    requires encode(ReasoningPrefix(r)).Some?
    ensures GetStored(SetStored(storage, r, data, encode, true), r2, encode) == Some(data)
  {
    assert |ReasoningPrefix(r)| > 0;
    assert r2 != "";
  }

  /** A write under one key leaves every lookup under another key as it was. */
  lemma StoreLeavesOtherKeys(storage: Storage, r: string, r2: string, data: Stored, encode: Encoder, writable: bool)
    requires StorageKey(r, encode) != StorageKey(r2, encode)
    ensures GetStored(SetStored(storage, r, data, encode, writable), r2, encode) == GetStored(storage, r2, encode)
  {
  }

  // ------------------------------------------------------------------ view

  /** `Math.floor((now - start) / 1000)`: the whole seconds from `start` to `now`. */
  function Elapsed(start: int, now: int): (s: int)
    ensures s * 1000 <= now - start < s * 1000 + 1000
  {
    (now - start) / 1000
  }

  /** Whole seconds never decrease as the clock advances. */
  lemma ElapsedMonotone(start: int, t0: int, t1: int)
    requires t0 <= t1
    ensures Elapsed(start, t0) <= Elapsed(start, t1)
  {
  }

  /** A ref read as a condition: both `null` and the number 0 are falsy. */
  predicate Truthy(t: Option<int>)
    ensures Truthy(t) <==> t != None && t != Some(0)
  {
    t.Some? && t.value != 0
  }

  /** The finish branch's update: the phase ends, collapse is left as it was. */
  function Finished(v: View, duration: int): View
  {
    v.(isLoading := false, showReasoned := true, isExpanded := false, isThinking := false,
       thinkingDuration := duration)
  }

  /** The collapse update, shared by the timeout and `forceCollapse`. */
  function Collapsed(v: View): View
  {
    v.(isExpanded := false, showReasoned := false, isCollapsed := true)
  }

  /** The `toggleExpanded` update. */
  function Toggled(v: View): View
  {
    v.(isExpanded := !v.isExpanded, showReasoned := false)
  }

  /** The restore update, applied when stored data is found. */
  function Restored(v: View, duration: int): View
  {
    v.(thinkingDuration := duration, showReasoned := true, isExpanded := false)
  }

  lemma CollapsedIdempotent(v: View)
    ensures Collapsed(Collapsed(v)) == Collapsed(v)
    ensures Collapsed(v).thinkingDuration == v.thinkingDuration && Collapsed(v).isThinking == v.isThinking
  {
  }

  lemma ToggledTwice(v: View)
    ensures Toggled(Toggled(v)).isExpanded == v.isExpanded
    ensures Toggled(Toggled(v)) == v.(showReasoned := false)
  {
  }

  // --------------------------------------------------------------- effects

  /** The first effect: a restore when the reasoning text is there and loading is over. */
  function RestoreEffect(h: Hook, reasoning: string, isLoading: bool, encode: Encoder): (r: Hook)
    ensures r.(view := h.view) == h
    ensures r.view.isLoading == h.view.isLoading && r.view.isThinking == h.view.isThinking
            && r.view.isCollapsed == h.view.isCollapsed
    ensures r.view != h.view ==> reasoning != "" && !isLoading && GetStored(h.storage, reasoning, encode).Some?
    ensures reasoning != "" && !isLoading && GetStored(h.storage, reasoning, encode).Some? ==>
              r.view.thinkingDuration == GetStored(h.storage, reasoning, encode).value.duration
              && r.view.showReasoned && !r.view.isExpanded
  {
    if reasoning != "" && !isLoading then
      match GetStored(h.storage, reasoning, encode)
      case Some(d) => h.(view := Restored(h.view, d.duration))
      case None => h
    else h
  }

  /** The start guard, read on the state of the render being committed. */
  predicate Starts(render: View, isLoading: bool)
  {
    isLoading && !render.isThinking
  }

  /** The finish guard, read on the state of the render being committed. */
  predicate Finishes(render: View, reasoning: string, isLoading: bool)
  {
    !Starts(render, isLoading) && reasoning != "" && !isLoading && render.isThinking
  }

  /**
   * The duration fixed at finish: the elapsed whole seconds if a start time is
   * recorded, else the duration of the render being committed.
   */
  function FinalDuration(render: View, startTime: Option<int>, now: int): int
  {
    if Truthy(startTime) then Elapsed(startTime.value, now) else render.thinkingDuration
  }

  /**
   * The body of the main effect: the start branch, the finish branch, or nothing,
   * without the cleanup of the previous run. The guards and the fallback duration
   * read `render`, the state the effect closed over. The updates apply to `h`, the
   * state after the updates already queued in this commit.
   */
  function MainBody(h: Hook, render: View, reasoning: string, isLoading: bool, now: int, writable: bool, encode: Encoder): Hook
  {
    if Starts(render, isLoading) then
      h.(startTime := Some(now), view := ThinkingView, ticking := true)
    else if Finishes(render, reasoning, isLoading) then
      var d := FinalDuration(render, h.startTime, now);
      h.(ticking := false,
         storage := if Truthy(h.startTime)
                    then SetStored(h.storage, reasoning, Stored(h.startTime.value, d), encode, writable)
                    else h.storage,
         view := Finished(h.view, d),
         collapseAt := Some(now + CollapseDelayMs))
    else h
  }

  /**
   * The main effect as the source has it. The cleanup returned by the last finish
   * clears the pending timeout before the body runs again.
   */
  function MainEffectAsWritten(h: Hook, render: View, reasoning: string, isLoading: bool, now: int, writable: bool, encode: Encoder): (r: Hook)
    ensures r.collapseAt.Some? ==> Finishes(render, reasoning, isLoading) && r.collapseAt == Some(now + CollapseDelayMs)
  {
    MainBody(h.(collapseAt := None), render, reasoning, isLoading, now, writable, encode)
  }

  /**
   * The main effect with the pending collapse cancelled only when a new thinking
   * round starts, which is when a collapse is meant to be abandoned.
   */
  function MainEffect(h: Hook, render: View, reasoning: string, isLoading: bool, now: int, writable: bool, encode: Encoder): (r: Hook)
    ensures !Starts(render, isLoading) && !Finishes(render, reasoning, isLoading) ==> r == h
    ensures Starts(render, isLoading) ==>
              r.view == ThinkingView && r.startTime == Some(now) && r.ticking && r.collapseAt == None
    ensures Finishes(render, reasoning, isLoading) ==> !r.ticking && r.collapseAt == Some(now + CollapseDelayMs)
  {
    MainBody(if Starts(render, isLoading) then h.(collapseAt := None) else h, render, reasoning, isLoading, now, writable, encode)
  }

  /**
   * One commit with the given props: each effect runs if its dependencies changed,
   * the restore effect first, in declaration order. Both read the state of the
   * render being committed. `asWritten` selects the source's cleanup behaviour.
   */
  function CommitWith(h: Hook, reasoning: string, isLoading: bool, now: int, writable: bool, encode: Encoder, asWritten: bool): (c: Hook)
    ensures c.restoreDeps == Some(RestoreDeps(reasoning, isLoading))
    ensures c.mainDeps == Some(MainDeps(isLoading, reasoning, h.view.isThinking))
    ensures c.storage != h.storage ==> writable && Finishes(h.view, reasoning, isLoading)
    ensures c.startTime != h.startTime ==> Starts(h.view, isLoading)
  {
    var rd := RestoreDeps(reasoning, isLoading);
    var h1 := if h.restoreDeps == Some(rd) then h
              else RestoreEffect(h, reasoning, isLoading, encode).(restoreDeps := Some(rd));
    var md := MainDeps(isLoading, reasoning, h.view.isThinking);
    if h1.mainDeps == Some(md) then h1
    else if asWritten then MainEffectAsWritten(h1.(mainDeps := Some(md)), h.view, reasoning, isLoading, now, writable, encode)
    else MainEffect(h1.(mainDeps := Some(md)), h.view, reasoning, isLoading, now, writable, encode)
  }

  /** A commit as the source behaves: the same as the corrected one except for the collapse timer. */
  function CommitAsWritten(h: Hook, reasoning: string, isLoading: bool, now: int, writable: bool, encode: Encoder): (c: Hook)
    ensures c.(collapseAt := None) == Commit(h, reasoning, isLoading, now, writable, encode).(collapseAt := None)
  {
    CommitWith(h, reasoning, isLoading, now, writable, encode, true)
  }

  /** A commit with the corrected collapse timer; the class below follows this one. */
  function Commit(h: Hook, reasoning: string, isLoading: bool, now: int, writable: bool, encode: Encoder): (c: Hook)
    ensures c.collapseAt != h.collapseAt ==> Starts(h.view, isLoading) || Finishes(h.view, reasoning, isLoading)
  {
    CommitWith(h, reasoning, isLoading, now, writable, encode, false)
  }

  // ---------------------------------------------------------------- events

  /** The interval callback: recompute the duration if a start time is recorded. */
  function AfterTick(h: Hook, now: int): (r: Hook)
    ensures r.(view := h.view) == h
    ensures r.view.(thinkingDuration := h.view.thinkingDuration) == h.view
    ensures r.view.thinkingDuration != h.view.thinkingDuration ==> h.ticking && Truthy(h.startTime)
  {
    if h.ticking && Truthy(h.startTime) then h.(view := h.view.(thinkingDuration := Elapsed(h.startTime.value, now)))
    else h
  }

  /** The timeout callback, once its deadline has passed. */
  function AfterTimeout(h: Hook, now: int): (r: Hook)
    ensures h.collapseAt == None || now < h.collapseAt.value ==> r == h
    ensures r.view.thinkingDuration == h.view.thinkingDuration && r.view.isThinking == h.view.isThinking
    ensures r.(view := h.view, collapseAt := h.collapseAt) == h
  {
    match h.collapseAt
    case Some(at) => if at <= now then h.(view := Collapsed(h.view), collapseAt := None) else h
    case None => h
  }

  function AfterToggle(h: Hook): (r: Hook)
    ensures r.view.isExpanded == !h.view.isExpanded && !r.view.showReasoned
    ensures r.view.(isExpanded := h.view.isExpanded, showReasoned := h.view.showReasoned) == h.view
    ensures r.(view := h.view) == h
  {
    h.(view := Toggled(h.view))
  }

  function AfterForceCollapse(h: Hook): (r: Hook)
    ensures r.view.isCollapsed && !r.view.isExpanded && !r.view.showReasoned
    ensures r.view.thinkingDuration == h.view.thinkingDuration && r.view.isThinking == h.view.isThinking
    ensures r.(view := h.view) == h
  {
    h.(view := Collapsed(h.view))
  }

  /** Unmounting clears the interval and runs the main effect's cleanup. */
  function AfterUnmount(h: Hook): (r: Hook)
    ensures !r.ticking && r.collapseAt == None
    ensures r.(ticking := h.ticking, collapseAt := h.collapseAt) == h
  {
    h.(ticking := false, collapseAt := None)
  }

  // ------------------------------------------------------------- invariant

  /**
   * What every reachable hook satisfies. `isLoading` and `isThinking` are set and
   * cleared together. The interval runs only while thinking, and a start time is
   * recorded then. A collapse is pending only after thinking has ended.
   */
  predicate Consistent(h: Hook)
  {
    && h.view.isLoading == h.view.isThinking
    && (h.ticking ==> h.view.isThinking)
    && (h.view.isThinking ==> h.startTime.Some?)
    && (h.collapseAt.Some? ==> !h.view.isThinking)
  }

  lemma MountedConsistent(storage: Storage)
    ensures Consistent(Mounted(storage))
  {
  }

  lemma {:induction false} CommitConsistent(h: Hook, reasoning: string, isLoading: bool, now: int, writable: bool, encode: Encoder, asWritten: bool)
    requires Consistent(h)
    ensures Consistent(CommitWith(h, reasoning, isLoading, now, writable, encode, asWritten))
  {
  }

  lemma EventsConsistent(h: Hook, now: int)
    requires Consistent(h)
    ensures Consistent(AfterTick(h, now)) && Consistent(AfterTimeout(h, now))
    ensures Consistent(AfterToggle(h)) && Consistent(AfterForceCollapse(h)) && Consistent(AfterUnmount(h))
  {
  }

  // ------------------------------------------------------------ properties

  /**
   * A commit where loading is seen while not thinking, and the main effect runs:
   * the start branch sets all six fields and records the start time. This holds
   * of the commit as written and of the corrected one.
   */
  lemma StartWhenLoadingSeen(h: Hook, reasoning: string, now: int, writable: bool, encode: Encoder, asWritten: bool)
    requires !h.view.isThinking
    requires h.mainDeps != Some(MainDeps(true, reasoning, false))
    ensures var h' := CommitWith(h, reasoning, true, now, writable, encode, asWritten);
      && h'.view == ThinkingView
      && h'.startTime == Some(now)
      && h'.ticking
      && h'.collapseAt == None
      && h'.storage == h.storage
  {
  }

  /** Loading seen again while thinking changes nothing, whatever the effects do. */
  lemma LoadingWhileThinkingIsNoOp(h: Hook, reasoning: string, now: int, writable: bool, encode: Encoder, asWritten: bool)
    requires h.view.isThinking
    ensures var h' := CommitWith(h, reasoning, true, now, writable, encode, asWritten);
      h'.view == h.view && h'.startTime == h.startTime && h'.ticking == h.ticking && h'.storage == h.storage
  {
  }

  /** Thinking begins only at a commit where loading is seen. */
  lemma StartNeedsLoading(h: Hook, reasoning: string, isLoading: bool, now: int, writable: bool, encode: Encoder, asWritten: bool)
    requires !h.view.isThinking
    requires CommitWith(h, reasoning, isLoading, now, writable, encode, asWritten).view.isThinking
    ensures isLoading
  {
  }

  /** A tick sets the duration to the elapsed whole seconds since the recorded start. */
  lemma TickSetsElapsed(h: Hook, now: int)
    requires h.ticking && Truthy(h.startTime)
    ensures AfterTick(h, now).view.thinkingDuration * 1000 <= now - h.startTime.value
    ensures now - h.startTime.value < AfterTick(h, now).view.thinkingDuration * 1000 + 1000
  {
  }

  /** The durations the view shows after each of a run of ticks. */
  function Durations(h: Hook, times: seq<int>): (ds: seq<int>)
    ensures |ds| == |times|
    decreases |times|
  {
    if times == [] then []
    else var h' := AfterTick(h, times[0]); [h'.view.thinkingDuration] + Durations(h', times[1..])
  }

  predicate NonDecreasing(s: seq<int>)
  {
    forall i, j :: 0 <= i < j < |s| ==> s[i] <= s[j]
  }

  /**
   * While the interval runs, a clock that never goes back gives durations that never
   * decrease. The precondition on the first tick holds right after the start,
   * where the duration is 0 and the clock is at the start time.
   */
  lemma {:induction false} DurationNeverDecreases(h: Hook, times: seq<int>)
    requires h.ticking && Truthy(h.startTime)
    requires NonDecreasing(times)
    requires |times| > 0 ==> h.view.thinkingDuration <= Elapsed(h.startTime.value, times[0])
    ensures NonDecreasing([h.view.thinkingDuration] + Durations(h, times))
    decreases |times|
  {
    if times != [] {
      var h' := AfterTick(h, times[0]);
      var rest := times[1..];
      assert NonDecreasing(rest) by {
        forall i, j | 0 <= i < j < |rest| ensures rest[i] <= rest[j] {
          assert rest[i] == times[i + 1] && rest[j] == times[j + 1];
        }
      }
      if rest != [] {
        ElapsedMonotone(h.startTime.value, times[0], rest[0]);
      }
      DurationNeverDecreases(h', rest);
      var tail := [h'.view.thinkingDuration] + Durations(h', rest);
      assert [h.view.thinkingDuration] + Durations(h, times) == [h.view.thinkingDuration] + tail;
      forall j | 0 < j < |tail| ensures tail[0] <= tail[j] {
        assert tail[0] <= tail[j];
      }
    }
  }

  /** Right after a start, as written or corrected, the shown durations start at 0 and never decrease. */
  lemma StartThenTicks(h: Hook, reasoning: string, now: int, writable: bool, encode: Encoder, asWritten: bool, times: seq<int>)
    requires !h.view.isThinking && now != 0
    requires h.mainDeps != Some(MainDeps(true, reasoning, false))
    requires NonDecreasing(times) && (|times| > 0 ==> now <= times[0])
    ensures var h' := CommitWith(h, reasoning, true, now, writable, encode, asWritten);
      NonDecreasing([0] + Durations(h', times))
  {
    var h' := CommitWith(h, reasoning, true, now, writable, encode, asWritten);
    if |times| > 0 {
      ElapsedMonotone(now, now, times[0]);
    }
    DurationNeverDecreases(h', times);
  }

  /**
   * A commit where thinking is over and the main effect runs: the phase ends with
   * the final duration, the interval is cancelled, the collapse is scheduled, and
   * `isCollapsed` is kept. This holds of the commit as written and of the
   * corrected one.
   */
  lemma FinishWhenLoadingEnds(h: Hook, reasoning: string, now: int, writable: bool, encode: Encoder, asWritten: bool)
    requires Consistent(h) && h.view.isThinking && reasoning != ""
    requires h.mainDeps != Some(MainDeps(false, reasoning, true))
    ensures var h' := CommitWith(h, reasoning, false, now, writable, encode, asWritten);
      && !h'.view.isThinking && !h'.view.isLoading && !h'.view.isExpanded && h'.view.showReasoned
      && h'.view.isCollapsed == h.view.isCollapsed
      && h'.view.thinkingDuration == FinalDuration(h.view, h.startTime, now)
      && !h'.ticking
      && h'.collapseAt == Some(now + CollapseDelayMs)
  {
  }

  /** With a recorded start the final duration is the elapsed whole seconds; without one it is the previous duration. */
  lemma FinalDurationCases(v: View, startTime: Option<int>, now: int)
    ensures Truthy(startTime) ==> FinalDuration(v, startTime, now) * 1000 <= now - startTime.value < FinalDuration(v, startTime, now) * 1000 + 1000
    ensures !Truthy(startTime) ==> FinalDuration(v, startTime, now) == v.thinkingDuration
  {
  }

  /**
   * Round trip through the session store. A finish stores the start time and the
   * duration. A later mount, after a reload, over that store, for reasoning with
   * the same first 50 characters and loading over, shows that duration as already
   * reasoned and not expanded. This holds of the commit as written and of the
   * corrected one.
   */
  lemma FinishThenRestore(h: Hook, r: string, now: int, encode: Encoder, r2: string, later: int, writable2: bool, asWritten: bool)
    requires Consistent(h) && h.view.isThinking && Truthy(h.startTime) && r != ""
    requires h.mainDeps != Some(MainDeps(false, r, true))
    requires encode(ReasoningPrefix(r)).Some? && ReasoningPrefix(r2) == ReasoningPrefix(r)
    ensures var h' := CommitWith(h, r, false, now, true, encode, asWritten);
      && StorageKey(r, encode).value in h'.storage
      && h'.storage[StorageKey(r, encode).value] == Stored(h.startTime.value, Elapsed(h.startTime.value, now))
      && var g := CommitWith(Mounted(h'.storage), r2, false, later, writable2, encode, asWritten);
      && g.view.thinkingDuration == Elapsed(h.startTime.value, now)
      && g.view.showReasoned && !g.view.isExpanded
  {
    var d := Stored(h.startTime.value, Elapsed(h.startTime.value, now));
    var h' := CommitWith(h, r, false, now, true, encode, asWritten);
    var h1 := if h.restoreDeps == Some(RestoreDeps(r, false)) then h
              else RestoreEffect(h, r, false, encode).(restoreDeps := Some(RestoreDeps(r, false)));
    assert h'.storage == SetStored(h1.storage, r, d, encode, true);
    StoreThenLookup(h1.storage, r, r2, d, encode);
    StoreThenLookup(h1.storage, r, r, d, encode);
  }

  /** Empty reasoning never finishes, so nothing is stored for it. */
  lemma EmptyReasoningNeverStored(h: Hook, isLoading: bool, now: int, writable: bool, encode: Encoder, asWritten: bool)
    ensures CommitWith(h, "", isLoading, now, writable, encode, asWritten).storage == h.storage
  {
  }

  /** A second `forceCollapse` changes nothing. */
  lemma ForceCollapseIdempotent(h: Hook)
    ensures AfterForceCollapse(AfterForceCollapse(h)) == AfterForceCollapse(h)
  {
  }

  /** The timeout, when it fires, collapses exactly as `forceCollapse` does. */
  lemma TimeoutCollapsesLikeForce(h: Hook, now: int)
    requires h.collapseAt.Some? && h.collapseAt.value <= now
    ensures AfterTimeout(h, now).view == AfterForceCollapse(h).view
    ensures AfterTimeout(h, now).collapseAt == None
  {
  }

  /** Toggling twice restores the hook, except that `showReasoned` stays cleared. */
  lemma ToggleTwiceRestores(h: Hook)
    ensures AfterToggle(AfterToggle(h)) == h.(view := h.view.(showReasoned := false))
  {
  }

  // ---------------------------------------------------------- the finding

  /**
   * As written, the render that follows a finish (the state changed, so React
   * renders again with the same props) re-runs the main effect, because
   * `state.isThinking` is one of its dependencies and has just changed. The
   * cleanup of that re-run clears the collapse timeout scheduled by the finish.
   */
  lemma AsWrittenRerenderCancelsCollapse(h: Hook, r: string, now: int, writable: bool, encode: Encoder, now2: int, writable2: bool)
    requires Consistent(h) && h.view.isThinking && r != ""
    requires h.mainDeps != Some(MainDeps(false, r, true))
    ensures var h' := CommitAsWritten(h, r, false, now, writable, encode);
      && h'.collapseAt == Some(now + CollapseDelayMs)
      && CommitAsWritten(h', r, false, now2, writable2, encode).collapseAt == None
  {
  }

  /**
   * A concrete run: loading from t = 1000 to t = 8000 with reasoning "r". As written, the hook is still not collapsed at t = 13000 and at
   * any time after.
   */
  lemma AsWrittenNeverAutoCollapses(encode: Encoder, t: int)
    requires t >= 13000
    ensures var h0 := Mounted(map[]);
      var h1 := CommitAsWritten(h0, "", true, 1000, true, encode);
      var h2 := CommitAsWritten(h1, "", true, 1000, true, encode);
      var h3 := CommitAsWritten(h2, "r", false, 8000, true, encode);
      var h4 := CommitAsWritten(h3, "r", false, 8000, true, encode);
      && h3.view.thinkingDuration == 7
      && h3.collapseAt == Some(13000)
      && !AfterTimeout(h4, t).view.isCollapsed
  {
  }

  /** A render with loading off: the reasoning prop, the clock reading, and whether the store accepts writes. */
  datatype Rerender = Rerender(reasoning: string, now: int, writable: bool)

  /** Corrected commits for a run of renders with loading off, as may follow a finish. */
  function Rerenders(h: Hook, renders: seq<Rerender>, encode: Encoder): Hook
    decreases |renders|
  {
    if renders == [] then h
    else Rerenders(Commit(h, renders[0].reasoning, false, renders[0].now, renders[0].writable, encode), renders[1..], encode)
  }

  /** Every render of the run carries the reasoning text `r`. */
  predicate SameReasoning(renders: seq<Rerender>, r: string)
  {
    forall i :: 0 <= i < |renders| ==> renders[i].reasoning == r
  }

  /**
   * Corrected: after a finish, any number of renders with loading off, whatever
   * their reasoning text, keep the collapse pending and thinking off. When they all
   * carry the reasoning the finish was committed with, they leave the view alone.
   */
  lemma {:induction false} CorrectedKeepsCollapse(h: Hook, renders: seq<Rerender>, encode: Encoder, at: int, r: string)
    requires !h.view.isThinking && h.collapseAt == Some(at)
    ensures Rerenders(h, renders, encode).collapseAt == Some(at)
    ensures !Rerenders(h, renders, encode).view.isThinking
    ensures SameReasoning(renders, r) && h.restoreDeps == Some(RestoreDeps(r, false))
            ==> Rerenders(h, renders, encode).view == h.view
    decreases |renders|
  {
    if renders != [] {
      var h1 := Commit(h, renders[0].reasoning, false, renders[0].now, renders[0].writable, encode);
      if SameReasoning(renders, r) && h.restoreDeps == Some(RestoreDeps(r, false)) {
        assert renders[0].reasoning == r;
        assert h1.view == h.view;
        assert SameReasoning(renders[1..], r) by {
          forall i | 0 <= i < |renders[1..]| ensures renders[1..][i].reasoning == r {
            assert renders[1..][i] == renders[i + 1];
          }
        }
      }
      CorrectedKeepsCollapse(h1, renders[1..], encode, at, r);
    }
  }

  /**
   * Corrected: a finish at `now`, followed by any renders with loading off, leaves a
   * collapse that the timeout at `now + 5000` or later carries out: the view is
   * collapsed, neither expanded nor showing "reasoned", and no collapse is pending.
   * When the renders carry the same reasoning, the collapsed view keeps the final
   * duration.
   */
  lemma CorrectedAutoCollapses(h: Hook, r: string, now: int, writable: bool, encode: Encoder, renders: seq<Rerender>, t: int)
    requires Consistent(h) && h.view.isThinking && r != ""
    requires h.mainDeps != Some(MainDeps(false, r, true))
    requires t >= now + CollapseDelayMs
    ensures var h' := AfterTimeout(Rerenders(Commit(h, r, false, now, writable, encode), renders, encode), t);
      && h'.view.isCollapsed && !h'.view.isExpanded && !h'.view.showReasoned && !h'.view.isThinking
      && h'.collapseAt == None
      && (SameReasoning(renders, r) ==> h'.view.thinkingDuration == FinalDuration(h.view, h.startTime, now))
  {
    var h1 := Commit(h, r, false, now, writable, encode);
    CorrectedKeepsCollapse(h1, renders, encode, now + CollapseDelayMs, r);
  }

  // ------------------------------------------------------------- the class

  /**
   * The hook instance: the same state as `Hook`, held in fields that its methods
   * update. `asWritten` chooses the source's cleanup of the collapse timer or the
   * corrected one.
   */
  class ReasoningHook {
    var view: View
    var startTime: Option<int>
    var ticking: bool
    var collapseAt: Option<int>
    var storage: Storage
    var restoreDeps: Option<RestoreDeps>
    var mainDeps: Option<MainDeps>
    const encode: Encoder
    const asWritten: bool

    function Snapshot(): Hook
      reads this
    {
      Hook(view, startTime, ticking, collapseAt, storage, restoreDeps, mainDeps)
    }

    ghost predicate Valid()
      reads this
    {
      Consistent(Snapshot())
    }

    constructor (encode: Encoder, storage: Storage, asWritten: bool)
      ensures Valid() && Snapshot() == Mounted(storage) && this.encode == encode && this.asWritten == asWritten
    {
      this.view := InitialView;
      this.startTime := None;
      this.ticking := false;
      this.collapseAt := None;
      this.storage := storage;
      this.restoreDeps := None;
      this.mainDeps := None;
      this.encode := encode;
      this.asWritten := asWritten;
    }

    method RunRestoreEffect(reasoning: string, isLoading: bool)
      modifies this
      ensures Snapshot() == RestoreEffect(old(Snapshot()), reasoning, isLoading, encode)
    {
      if reasoning != "" && !isLoading {
        var stored := GetStored(storage, reasoning, encode);
        if stored.Some? {
          view := view.(thinkingDuration := stored.value.duration, showReasoned := true, isExpanded := false);
        }
      }
    }

    /**
     * The main effect; `render` is the state of the render being committed. As
     * written, the last run's cleanup clears the pending collapse first; corrected,
     * only a start drops it.
     */
    method RunMainEffect(render: View, reasoning: string, isLoading: bool, now: int, writable: bool)
      modifies this
      ensures asWritten ==> Snapshot() == MainEffectAsWritten(old(Snapshot()), render, reasoning, isLoading, now, writable, encode)
      ensures !asWritten ==> Snapshot() == MainEffect(old(Snapshot()), render, reasoning, isLoading, now, writable, encode)
    {
      if asWritten {
        collapseAt := None;
      }
      if isLoading && !render.isThinking {
        collapseAt := None;
        startTime := Some(now);
        view := View(true, true, false, false, 0, true);
        ticking := true;
      } else if reasoning != "" && !isLoading && render.isThinking {
        var finalDuration := if Truthy(startTime) then Elapsed(startTime.value, now) else render.thinkingDuration;
        ticking := false;
        if Truthy(startTime) {
          storage := SetStored(storage, reasoning, Stored(startTime.value, finalDuration), encode, writable);
        }
        view := view.(isLoading := false, showReasoned := true, isExpanded := false, isThinking := false,
                      thinkingDuration := finalDuration);
        collapseAt := Some(now + CollapseDelayMs);
      }
    }

    /** One commit of a render with props `reasoning` and `isLoading` at time `now`. */
    method Render(reasoning: string, isLoading: bool, now: int, writable: bool)
      requires Valid()
      modifies this
      ensures Valid()
      ensures Snapshot() == CommitWith(old(Snapshot()), reasoning, isLoading, now, writable, encode, asWritten)
    {
      CommitConsistent(Snapshot(), reasoning, isLoading, now, writable, encode, asWritten);
      var render := view;
      var md := MainDeps(isLoading, reasoning, render.isThinking);
      var rd := RestoreDeps(reasoning, isLoading);
      if restoreDeps != Some(rd) {
        RunRestoreEffect(reasoning, isLoading);
        restoreDeps := Some(rd);
      }
      if mainDeps != Some(md) {
        mainDeps := Some(md);
        RunMainEffect(render, reasoning, isLoading, now, writable);
      }
    }

    /** The duration interval fires. */
    method OnInterval(now: int)
      requires Valid()
      modifies this
      ensures Valid() && Snapshot() == AfterTick(old(Snapshot()), now)
    {
      if ticking && Truthy(startTime) {
        view := view.(thinkingDuration := Elapsed(startTime.value, now));
      }
    }

    /** The collapse timeout fires at time `now`. */
    method OnTimeout(now: int)
      requires Valid()
      modifies this
      ensures Valid() && Snapshot() == AfterTimeout(old(Snapshot()), now)
    {
      if collapseAt.Some? && collapseAt.value <= now {
        view := view.(isExpanded := false, showReasoned := false, isCollapsed := true);
        collapseAt := None;
      }
    }

    method ToggleExpanded()
      requires Valid()
      modifies this
      ensures Valid() && Snapshot() == AfterToggle(old(Snapshot()))
    {
      view := view.(isExpanded := !view.isExpanded, showReasoned := false);
    }

    method ForceCollapse()
      requires Valid()
      modifies this
      ensures Valid() && Snapshot() == AfterForceCollapse(old(Snapshot()))
    {
      view := view.(isExpanded := false, showReasoned := false, isCollapsed := true);
    }

    method Unmount()
      requires Valid()
      modifies this
      ensures Valid() && Snapshot() == AfterUnmount(old(Snapshot()))
    {
      ticking := false;
      collapseAt := None;
    }
  }
}
