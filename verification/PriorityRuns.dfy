/**
 * Whole runs of the priority algorithm: passes of the short-term scheduler interleaved with
 * the dispatcher, which waits on LPL_empty and pops LPL in two separate steps.
 */
module PriorityRuns {
  import opened Sorting
  import opened SortMerge

  datatype Step<T> =
    | Pass(arrivals: seq<T>) // one ordenarPRI
    | Wait                   // sem_wait(LPL_empty) in PROCER
    | Pop                    // queue_pop(LPL) in PROCER

  datatype State<T> = State(
    ready: seq<T>,      // LPL
    sem: nat,           // LPL_empty
    holding: bool,      // the dispatcher has waited and not popped
    dispatched: seq<T>, // what was popped
    crashed: bool       // a pop met an empty list
  )

  function Start<T>(): State<T> {
    State([], 0, false, [], false)
  }

  predicate Enabled<T>(s: State<T>, step: Step<T>) {
    !s.crashed && match step
    case Pass(_) => true
    case Wait => !s.holding && s.sem > 0
    case Pop => s.holding
  }

  function Apply<T>(s: State<T>, step: Step<T>, key: T -> real): State<T>
    requires Enabled(s, step)
  {
    match step
    case Pass(arrivals) =>
      s.(ready := Merged(s.ready, arrivals, s.sem, key),
         sem := SemaphoreAfter(s.ready, arrivals, s.sem))
    case Wait => s.(sem := s.sem - 1, holding := true)
    case Pop =>
      if s.ready == [] then s.(crashed := true)
      else s.(ready := s.ready[1..], holding := false, dispatched := s.dispatched + [s.ready[0]])
  }

  predicate Runs<T>(s: State<T>, steps: seq<Step<T>>, key: T -> real)
    decreases |steps|
  {
    steps == [] || (Enabled(s, steps[0]) && Runs(Apply(s, steps[0], key), steps[1..], key))
  }

  function End<T>(s: State<T>, steps: seq<Step<T>>, key: T -> real): State<T>
    requires Runs(s, steps, key)
    decreases |steps|
  {
    if steps == [] then s else End(Apply(s, steps[0], key), steps[1..], key)
  }

  function Arrived<T>(steps: seq<Step<T>>): seq<T> {
    if steps == [] then []
    else (if steps[0].Pass? then steps[0].arrivals else []) + Arrived(steps[1..])
  }

  /** Some pass of the run falls between a wait and its pop. */
  predicate Overtaken<T>(steps: seq<Step<T>>, holding: bool) {
    if steps == [] then false
    else match steps[0]
      case Pass(_) => holding || Overtaken(steps[1..], holding)
      case Wait => Overtaken(steps[1..], true)
      case Pop => Overtaken(steps[1..], false)
  }

  function Held<T>(s: State<T>): nat {
    if s.holding then 1 else 0
  }

  /** `excess`: the semaphore counts one process that is not there. */
  ghost predicate Inv<T>(s: State<T>, excess: bool, key: T -> real) {
    && Sorted(s.ready, key)
    && s.sem + Held(s) == |s.ready| + (if excess then 1 else 0)
  }

  lemma PassKeeps<T>(s: State<T>, arrivals: seq<T>, excess: bool, key: T -> real)
    requires Inv(s, excess, key) && !s.crashed
    ensures Inv(Apply(s, Pass(arrivals), key), excess || s.holding, key)
  {
    var step: Step<T> := Pass(arrivals);
    var gathered := Gathered(s.ready, arrivals, s.sem);
    SortLength(gathered, key);
    StableSortSorts(gathered, key);
    assert Taken(|s.ready|, s.sem) == |s.ready|;
    assert Apply(s, step, key).ready == StableSort(gathered, key);
  }

  lemma StepKeeps<T>(s: State<T>, step: Step<T>, excess: bool, key: T -> real)
    requires Inv(s, excess, key) && Enabled(s, step)
    requires !Apply(s, step, key).crashed
    ensures Inv(Apply(s, step, key), excess || (step.Pass? && s.holding), key)
  {
    match step
    case Pass(arrivals) => PassKeeps(s, arrivals, excess, key);
    case Wait =>
    case Pop => TailSorted(s.ready, key);
  }

  lemma {:induction false} RunKeeps<T>(s: State<T>, steps: seq<Step<T>>, excess: bool, key: T -> real)
    requires Runs(s, steps, key) && Inv(s, excess, key)
    ensures var e := End(s, steps, key);
            && (e.crashed ==> s.crashed || excess || Overtaken(steps, s.holding))
            && (!e.crashed ==> Inv(e, excess || Overtaken(steps, s.holding), key))
    decreases |steps|
  {
    hide Merged, SemaphoreAfter, Sorted;
    if steps != [] {
      var t := Apply(s, steps[0], key);
      if t.crashed {
        assert steps[1..] == [];
      } else {
        StepKeeps(s, steps[0], excess, key);
        RunKeeps(t, steps[1..], excess || (steps[0].Pass? && s.holding), key);
      }
    }
  }

  /**
   * Every run: the ready list is sorted, and the semaphore is one too high exactly when some pass
   * fell between a wait and its pop; only such a run can make the dispatcher pop an empty list.
   */
  lemma EveryRun<T>(steps: seq<Step<T>>, key: T -> real)
    requires Runs(Start(), steps, key)
    ensures var e := End(Start(), steps, key);
            && (e.crashed ==> Overtaken(steps, false))
            && (!e.crashed ==>
                  && Sorted(e.ready, key)
                  && e.sem + Held(e) == |e.ready| + if Overtaken(steps, false) then 1 else 0)
  {
    RunKeeps(Start(), steps, false, key);
  }

  /** Whatever the run, a dispatched process has the least key among all ready ones. */
  lemma DispatchesTheLeast<T>(steps: seq<Step<T>>, key: T -> real, i: nat)
    requires Runs(Start(), steps, key)
    requires var e := End(Start(), steps, key); Enabled(e, Pop) && i < |e.ready|
    ensures var e := End(Start(), steps, key); var f := Apply(e, Pop, key);
            && !f.crashed && f.dispatched != [] && f.ready == e.ready[1..]
            && key(f.dispatched[|f.dispatched| - 1]) <= key(e.ready[i])
  {
    EveryRun(steps, key);
    HeadIsLeast(End(Start(), steps, key).ready, key, i);
  }

  // ----- what a run loses

  /** Some pass without arrivals comes while more has arrived than was popped. */
  predicate StarvedPass<T>(surplus: int, steps: seq<Step<T>>)
    decreases |steps|
  {
    if steps == [] then false
    else match steps[0]
      case Pass(arrivals) => (arrivals == [] && surplus > 0) || StarvedPass(surplus + |arrivals|, steps[1..])
      case Wait => StarvedPass(surplus, steps[1..])
      case Pop => StarvedPass(surplus - 1, steps[1..])
  }

  /** How many processes the passes without arrivals drop, when `waiting` are ready at first. */
  function Dropped<T>(waiting: nat, steps: seq<Step<T>>): nat
    decreases |steps|
  {
    if steps == [] then 0
    else match steps[0]
      case Pass(arrivals) =>
        if arrivals == [] then waiting + Dropped(0, steps[1..]) else Dropped(waiting + |arrivals|, steps[1..])
      case Wait => Dropped(waiting, steps[1..])
      case Pop => Dropped(if waiting > 0 then waiting - 1 else 0, steps[1..])
  }

  /** Who is still in the model's sight: ready, or popped by the dispatcher. */
  function Present<T>(s: State<T>): multiset<T> {
    multiset(s.ready) + multiset(s.dispatched)
  }

  function Coming<T>(step: Step<T>): seq<T> {
    if step.Pass? then step.arrivals else []
  }

  // how the number of ready processes changes
  function ReadyAfter<T>(waiting: nat, step: Step<T>): nat {
    match step
    case Pass(arrivals) => if arrivals == [] then 0 else waiting + |arrivals|
    case Wait => waiting
    case Pop => if waiting > 0 then waiting - 1 else 0
  }

  lemma StepPresent<T>(s: State<T>, step: Step<T>, excess: bool, key: T -> real)
    requires Inv(s, excess, key) && Enabled(s, step)
    ensures var t := Apply(s, step, key);
            && |t.ready| == ReadyAfter(|s.ready|, step)
            && Present(t) <= Present(s) + multiset(Coming(step))
            && |Present(t)| == |Present(s)| + |Coming(step)| - if step == Pass([]) then |s.ready| else 0
  {
    match step
    case Pass(arrivals) =>
      assert Taken(|s.ready|, s.sem) == |s.ready|;
      MergeKeepsEveryProcess(s.ready, arrivals, s.sem, key);
      SortLength(Gathered(s.ready, arrivals, s.sem), key);
    case Wait =>
    case Pop =>
      if s.ready != [] {
        assert s.ready == [s.ready[0]] + s.ready[1..];
      }
  }

  lemma OnlyPopsCrash<T>(s: State<T>, step: Step<T>, key: T -> real)
    requires Enabled(s, step) && Apply(s, step, key).crashed
    ensures step.Pop?
  {
  }

  lemma CrashedRunsStop<T>(s: State<T>, steps: seq<Step<T>>, key: T -> real)
    requires s.crashed && Runs(s, steps, key)
    ensures steps == []
  {
  }

  // the schedule from one step to the next
  lemma OneStepOfSchedule<T>(waiting: nat, steps: seq<Step<T>>)
    ensures steps == [] ==> Dropped(waiting, steps) == 0 && !StarvedPass(waiting, steps) && Arrived(steps) == []
    ensures steps != [] && steps[0].Pop? && steps[1..] == [] ==> !StarvedPass(waiting, steps)
    ensures steps != [] ==>
              var after := ReadyAfter(waiting, steps[0]);
              && Arrived(steps) == Coming(steps[0]) + Arrived(steps[1..])
              && Dropped(waiting, steps) == (if steps[0] == Pass([]) then waiting else 0) + Dropped(after, steps[1..])
              && (steps[0] == Pass([]) && waiting > 0 ==> StarvedPass(waiting, steps))
              && (!(steps[0] == Pass([]) && waiting > 0) && !(steps[0].Pop? && waiting == 0) ==>
                    StarvedPass(waiting, steps) == StarvedPass(after, steps[1..]))
  {
  }

  lemma PopsSomebody<T>(s: State<T>, key: T -> real)
    requires Enabled(s, Pop) && !Apply(s, Pop, key).crashed
    ensures s.ready != []
  {
  }

  lemma {:induction false} RunLoses<T>(s: State<T>, steps: seq<Step<T>>, excess: bool, key: T -> real)
    requires Runs(s, steps, key) && Inv(s, excess, key)
    ensures var e := End(s, steps, key);
            && Present(e) <= Present(s) + multiset(Arrived(steps))
            && |Present(e)| + Dropped(|s.ready|, steps) == |Present(s)| + |Arrived(steps)|
    ensures StarvedPass(|s.ready|, steps) <==> Dropped(|s.ready|, steps) > 0
    decreases |steps|
  {
    hide Merged, SemaphoreAfter, Present, Inv, Dropped, StarvedPass, Arrived, Apply, Enabled;
    if steps == [] {
      assert Dropped(|s.ready|, steps) == 0 && !StarvedPass(|s.ready|, steps) && Arrived(steps) == [] by {
        OneStepOfSchedule(|s.ready|, steps);
      }
    } else {
      OneStepOfSchedule(|s.ready|, steps);
      var t := Apply(s, steps[0], key);
      StepPresent(s, steps[0], excess, key);
      if t.crashed {
        OnlyPopsCrash(s, steps[0], key);
        CrashedRunsStop(t, steps[1..], key);
        OneStepOfSchedule(|t.ready|, steps[1..]);
      } else {
        if steps[0].Pop? {
          PopsSomebody(s, key);
        }
        StepKeeps(s, steps[0], excess, key);
        RunLoses(t, steps[1..], excess || (steps[0].Pass? && s.holding), key);
      }
    }
  }

  /**
   * What a run loses is decided by its schedule alone: some process that arrived is neither ready
   * nor dispatched, if and only if a pass without arrivals came while more had arrived than was
   * popped. Nothing appears from nowhere, and the number lost is known.
   */
  lemma LosesExactlyWhen<T>(steps: seq<Step<T>>, key: T -> real)
    requires Runs(Start(), steps, key)
    ensures var e := End(Start(), steps, key);
            && (multiset(Arrived(steps)) != multiset(e.ready) + multiset(e.dispatched) <==> StarvedPass(0, steps))
            && multiset(e.ready) + multiset(e.dispatched) <= multiset(Arrived(steps))
            && |e.ready| + |e.dispatched| + Dropped(0, steps) == |Arrived(steps)|
  {
    RunLoses(Start(), steps, false, key);
    var e := End(Start(), steps, key);
    var all, left := multiset(Arrived(steps)), multiset(e.ready) + multiset(e.dispatched);
    assert Present(Start<T>()) == multiset{};
    assert all == left + (all - left);
  }

  // the dispatcher alone: wait, pop, wait, pop, …
  ghost function Drain<T>(s: State<T>): seq<Step<T>>
    decreases |s.ready|, !s.holding
  {
    if !s.holding then [Wait] + Drain(s.(sem := if s.sem > 0 then s.sem - 1 else 0, holding := true))
    else if s.ready == [] then [Pop]
    else [Pop] + Drain(s.(ready := s.ready[1..], holding := false, dispatched := s.dispatched + [s.ready[0]]))
  }

  lemma {:induction false} DrainCrashes<T>(s: State<T>, key: T -> real)
    requires Inv(s, true, key) && !s.crashed
    ensures Runs(s, Drain(s), key) && End(s, Drain(s), key).crashed
    decreases |s.ready|, !s.holding
  {
    var step := Drain(s)[0];
    var t := Apply(s, step, key);
    if s.holding && s.ready == [] {
      assert Drain(s)[1..] == [];
    } else {
      StepKeeps(s, step, true, key);
      assert Drain(s)[1..] == Drain(t);
      DrainCrashes(t, key);
    }
  }

  /** After an overtaken wait, the dispatcher alone reaches a pop of an empty list. */
  lemma OvertakenRunsCanCrash<T>(steps: seq<Step<T>>, key: T -> real)
    requires Runs(Start(), steps, key) && !End(Start(), steps, key).crashed && Overtaken(steps, false)
    ensures var e := End(Start(), steps, key); Runs(e, Drain(e), key) && End(e, Drain(e), key).crashed
  {
    EveryRun(steps, key);
    DrainCrashes(End(Start(), steps, key), key);
  }
}
