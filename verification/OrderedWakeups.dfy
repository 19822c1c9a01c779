/** How often STS wakes for nothing under PRI or SPN, in every run. */
module OrderedWakeups {
  import opened Options
  import opened Scheduler
  import opened Tokens
  import opened Runs
  import opened Ordered
  import opened OrderedRuns

  /** 1 if STS takes a feed's token before its producer has posted STS_in_empty. */
  function Failing(o: Whole, a: Action): nat {
    B(a.Plain? && FailsToMatch(o.base, a.step))
  }

  /** Some run of `n` actions, `failed` of them failed matches, leads from `start` to `o`. */
  ghost predicate LeadsFailing(c: Config, keys: Keys, start: Whole, o: Whole, n: nat, failed: nat)
    requires ConfigOk(c)
    decreases n
  {
    if n == 0 then o == start && failed == 0
    else
      exists q, a ::
        && CanDo(c, q, a) && Do(c, keys, q, a) == Some(o)
        && Failing(q, a) <= failed && LeadsFailing(c, keys, start, q, n - 1, failed - Failing(q, a))
  }

  lemma {:induction false} LeadsReaches(c: Config, keys: Keys, start: Whole, o: Whole, n: nat, failed: nat)
    requires ConfigOk(c) && OrderedInv(c, keys, start) && LeadsFailing(c, keys, start, o, n, failed)
    ensures OrderedInv(c, keys, o) && Surplus(c, AsFifo(o)) == Surplus(c, AsFifo(start)) + failed
    decreases n
  {
    hide OrderedInv, CanDo, Do, Failing, ConfigOk, Surplus;
    if n > 0 {
      var q, a :|
        && CanDo(c, q, a) && Do(c, keys, q, a) == Some(o)
        && Failing(q, a) <= failed && LeadsFailing(c, keys, start, q, n - 1, failed - Failing(q, a));
      LeadsReaches(c, keys, start, q, n - 1, failed - Failing(q, a));
      ActionKeepsShared(c, keys, q, a, o);
      ActionSurplus(c, keys, q, a, o);
    }
  }

  lemma ActionSurplus(c: Config, keys: Keys, o: Whole, a: Action, q: Whole)
    requires ConfigOk(c) && OrderedInv(c, keys, o) && CanDo(c, o, a) && Do(c, keys, o, a) == Some(q)
    ensures Surplus(c, AsFifo(q)) == Surplus(c, AsFifo(o)) + Failing(o, a)
  {
    hide OrderedInv, Surplus, ConfigOk, Apply, Enabled, Gather;
    StandsAnywhere(c, keys, o);
    match a
    case Merge => PassesSurplus(c, keys, o, a, q);
    case Plain(step) =>
      if step == StsGoesOn && o.base.sts.SPop? {
        PassesSurplus(c, keys, o, a, q);
      } else {
        PlainEffect(c, o, step, q.base);
        PlainAsFifo(c, o, step);
        StepSurplus(c, AsFifo(o), step, AsFifo(q));
      }
  }

  // popping a feed and merging post and take nothing that STS wakes for
  lemma PassesSurplus(c: Config, keys: Keys, o: Whole, a: Action, q: Whole)
    requires ConfigOk(c) && CanDo(c, o, a) && Do(c, keys, o, a) == Some(q)
    requires a == Merge || (a == Plain(StsGoesOn) && o.base.sts.SPop?)
    ensures Surplus(c, AsFifo(q)) == Surplus(c, AsFifo(o)) && Failing(o, a) == 0
  {
    SurplusOf(c, o);
    SurplusOf(c, q);
    assert HalfPosts(q.base) == HalfPosts(o.base) && FeedTokens(q.base) == FeedTokens(o.base);
  }

  /**
   * In every run: whenever STS is about to wait and no producer stands between its two posts,
   * STS_in_empty announces what the feeds announce plus one wake-up for nothing per failed match.
   */
  lemma OrderedWakesForNothingExactlyWhen(c: Config, keys: Keys, o: Whole, n: nat, failed: nat)
    requires ConfigOk(c) && LeadsFailing(c, keys, Begin(c), o, n, failed)
    requires o.base.sts == SWait && HalfPosts(o.base) == 0
    ensures o.base.sem.stsIn == FeedTokens(o.base) + failed
    ensures o.base.sem.stsIn > FeedTokens(o.base) <==> failed > 0
  {
    hide LeadsFailing, ConfigOk, OrderedInv, Surplus;
    BeginKept(c, keys);
    LeadsReaches(c, keys, Begin(c), o, n, failed);
    assert AsFifo(Begin(c)) == Start(c);
    StartSurplus(c);
    SurplusOf(c, o);
  }

  /** After one failed match STS never sleeps again, except while a producer is between its posts. */
  lemma OrderedNeverSleepsAgain(c: Config, keys: Keys, o: Whole, n: nat, failed: nat, q: Whole, m: nat, more: nat)
    requires ConfigOk(c) && LeadsFailing(c, keys, Begin(c), o, n, failed) && failed > 0
    requires LeadsFailing(c, keys, o, q, m, more) && q.base.sts == SWait && HalfPosts(q.base) == 0
    ensures q.base.sem.stsIn > 0
  {
    hide LeadsFailing, ConfigOk, OrderedInv, Surplus;
    BeginKept(c, keys);
    LeadsReaches(c, keys, Begin(c), o, n, failed);
    assert AsFifo(Begin(c)) == Start(c);
    StartSurplus(c);
    LeadsReaches(c, keys, o, q, m, more);
    SurplusOf(c, q);
  }
}
