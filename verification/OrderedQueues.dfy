/** Under PRI and SPN every queue but LPL, which is sorted, is first in, first out over whole runs. */
module OrderedQueues {
  import opened Options
  import opened Scheduler
  import opened FirstInFirstOut
  import opened Ordered

  predicate CanPerform(c: Config, keys: Keys, o: Whole, actions: seq<Action>)
    requires ConfigOk(c)
    decreases |actions|
  {
    actions == [] ||
    (CanDo(c, o, actions[0]) &&
     (Do(c, keys, o, actions[0]).Some? ==> CanPerform(c, keys, Do(c, keys, o, actions[0]).value, actions[1..])))
  }

  /** The state after `actions`; `None` after a crash. */
  function Perform(c: Config, keys: Keys, o: Whole, actions: seq<Action>): Option<Whole>
    requires ConfigOk(c) && CanPerform(c, keys, o, actions)
    decreases |actions|
  {
    if actions == [] then Some(o)
    else
      var t := Do(c, keys, o, actions[0]);
      if t.None? then None else Perform(c, keys, t.value, actions[1..])
  }

  function ActionEntering(o: Whole, a: Action, q: Queue): seq<Proc> {
    if a.Plain? then Entering(o.base, a.step, q) else []
  }

  /** A process STS pops is the last of its working list. */
  function ActionLeaving(c: Config, o: Whole, a: Action, t: Whole, q: Queue): seq<Proc>
    requires ConfigOk(c)
  {
    if a == Plain(StsGoesOn) && o.base.sts.SPop? then
      if o.base.sts.i < 4 && q == Of(c.order[o.base.sts.i]) && t.work != [] then [t.work[|t.work| - 1]] else []
    else if a.Plain? then Leaving(c, o.base, a.step, t.base, q)
    else []
  }

  lemma GatherInTurn(c: Config, o: Whole, t: Whole, q: Queue)
    requires ConfigOk(c) && o.base.sts.SPop? && Gather(c, o, o.base.sts.i) == Some(t) && q != LPL
    ensures ActionLeaving(c, o, Plain(StsGoesOn), t, q) + Content(t.base, q) == Content(o.base, q)
    ensures t.base.lpb == o.base.lpb
  {
    var queue := o.base.feeds.Get(c.order[o.base.sts.i]);
    assert queue == [queue[0]] + queue[1..];
  }

  lemma ActionInTurn(c: Config, keys: Keys, o: Whole, a: Action, t: Whole, q: Queue)
    requires ConfigOk(c) && CanDo(c, o, a) && Do(c, keys, o, a) == Some(t) && q != LPL
    ensures ActionLeaving(c, o, a, t, q) + Content(t.base, q) == Content(o.base, q) + ActionEntering(o, a, q)
  {
    hide Apply, Enabled, ConfigOk, Gather;
    match a
    case Merge =>
    case Plain(step) =>
      if step == StsGoesOn && o.base.sts.SPop? {
        GatherInTurn(c, o, t, q);
        assert Entering(o.base, step, q) == [];
      } else {
        StepInTurn(c, o.base, step, t.base, q);
      }
  }

  function AllEntered(c: Config, keys: Keys, o: Whole, actions: seq<Action>, q: Queue): seq<Proc>
    requires ConfigOk(c) && CanPerform(c, keys, o, actions) && Perform(c, keys, o, actions).Some?
    decreases |actions|
  {
    if actions == [] then []
    else ActionEntering(o, actions[0], q) + AllEntered(c, keys, Do(c, keys, o, actions[0]).value, actions[1..], q)
  }

  function AllLeft(c: Config, keys: Keys, o: Whole, actions: seq<Action>, q: Queue): seq<Proc>
    requires ConfigOk(c) && CanPerform(c, keys, o, actions) && Perform(c, keys, o, actions).Some?
    decreases |actions|
  {
    if actions == [] then []
    else
      var t := Do(c, keys, o, actions[0]).value;
      ActionLeaving(c, o, actions[0], t, q) + AllLeft(c, keys, t, actions[1..], q)
  }

  lemma {:induction false} PerformInTurn(c: Config, keys: Keys, o: Whole, actions: seq<Action>, q: Queue)
    requires ConfigOk(c) && CanPerform(c, keys, o, actions) && Perform(c, keys, o, actions).Some? && q != LPL
    ensures AllLeft(c, keys, o, actions, q) + Content(Perform(c, keys, o, actions).value.base, q)
            == Content(o.base, q) + AllEntered(c, keys, o, actions, q)
    decreases |actions|
  {
    hide Do, CanDo, ConfigOk, Content, ActionEntering, ActionLeaving;
    if actions != [] {
      var t := Do(c, keys, o, actions[0]).value;
      ActionInTurn(c, keys, o, actions[0], t, q);
      PerformInTurn(c, keys, t, actions[1..], q);
      Chained(ActionLeaving(c, o, actions[0], t, q), Content(o.base, q), ActionEntering(o, actions[0], q),
              Content(t.base, q), AllLeft(c, keys, t, actions[1..], q), AllEntered(c, keys, t, actions[1..], q),
              Content(Perform(c, keys, o, actions).value.base, q));
    }
  }

  // ----- requests in LPB

  function ActionAsking(o: Whole, a: Action, t: Whole): seq<Request> {
    if a.Plain? then RequestEntering(o.base, a.step, t.base) else []
  }

  function ActionServing(o: Whole, a: Action, t: Whole): seq<Request> {
    if a.Plain? then RequestLeaving(o.base, a.step, t.base) else []
  }

  lemma ActionServesInTurn(c: Config, keys: Keys, o: Whole, a: Action, t: Whole)
    requires ConfigOk(c) && CanDo(c, o, a) && Do(c, keys, o, a) == Some(t)
    ensures ActionServing(o, a, t) + t.base.lpb == o.base.lpb + ActionAsking(o, a, t)
  {
    hide Apply, Enabled, ConfigOk, Gather;
    match a
    case Merge =>
    case Plain(step) =>
      if step == StsGoesOn && o.base.sts.SPop? {
        GatherInTurn(c, o, t, LFIFO);
        assert RequestLeaving(o.base, step, t.base) == RequestEntering(o.base, step, t.base) == [];
      } else {
        StepServesInTurn(c, o.base, step, t.base);
      }
  }

  function AllAsked(c: Config, keys: Keys, o: Whole, actions: seq<Action>): seq<Request>
    requires ConfigOk(c) && CanPerform(c, keys, o, actions) && Perform(c, keys, o, actions).Some?
    decreases |actions|
  {
    if actions == [] then []
    else
      var t := Do(c, keys, o, actions[0]).value;
      ActionAsking(o, actions[0], t) + AllAsked(c, keys, t, actions[1..])
  }

  function AllServed(c: Config, keys: Keys, o: Whole, actions: seq<Action>): seq<Request>
    requires ConfigOk(c) && CanPerform(c, keys, o, actions) && Perform(c, keys, o, actions).Some?
    decreases |actions|
  {
    if actions == [] then []
    else
      var t := Do(c, keys, o, actions[0]).value;
      ActionServing(o, actions[0], t) + AllServed(c, keys, t, actions[1..])
  }

  lemma {:induction false} PerformServesInTurn(c: Config, keys: Keys, o: Whole, actions: seq<Action>)
    requires ConfigOk(c) && CanPerform(c, keys, o, actions) && Perform(c, keys, o, actions).Some?
    ensures AllServed(c, keys, o, actions) + Perform(c, keys, o, actions).value.base.lpb
            == o.base.lpb + AllAsked(c, keys, o, actions)
    decreases |actions|
  {
    hide Do, CanDo, ConfigOk, ActionAsking, ActionServing;
    if actions != [] {
      var t := Do(c, keys, o, actions[0]).value;
      ActionServesInTurn(c, keys, o, actions[0], t);
      PerformServesInTurn(c, keys, t, actions[1..]);
      Chained(ActionServing(o, actions[0], t), o.base.lpb, ActionAsking(o, actions[0], t), t.base.lpb,
              AllServed(c, keys, t, actions[1..]), AllAsked(c, keys, t, actions[1..]),
              Perform(c, keys, o, actions).value.base.lpb);
    }
  }

  /** Every run under PRI or SPN that did not crash: LFIFO, the four feeds and LPB are first in, first out. */
  lemma EveryFeedIsFifo(c: Config, keys: Keys, actions: seq<Action>, q: Queue)
    requires ConfigOk(c) && CanPerform(c, keys, Begin(c), actions) && Perform(c, keys, Begin(c), actions).Some?
    requires q != LPL
    ensures var s := Perform(c, keys, Begin(c), actions).value.base;
            && AllLeft(c, keys, Begin(c), actions, q) + Content(s, q) == AllEntered(c, keys, Begin(c), actions, q)
            && AllServed(c, keys, Begin(c), actions) + s.lpb == AllAsked(c, keys, Begin(c), actions)
  {
    hide CanPerform, Perform, AllLeft, AllEntered, AllServed, AllAsked, ConfigOk;
    PerformInTurn(c, keys, Begin(c), actions, q);
    PerformServesInTurn(c, keys, Begin(c), actions);
    assert Content(Begin(c).base, q) == [] && Begin(c).base.lpb == [];
  }
}
