/**
 * What one undisturbed pass of STS does in the step system, under FIFO or RR: it drains the feeds one
 * after the other in the configured order.
 */
module Passes {
  import opened Options
  import opened Scheduler

  /** The state after `n` steps of STS alone. */
  function StsAlone(c: Config, s: State, n: nat): Option<State>
    requires ConfigOk(c)
    decreases n
  {
    if n == 0 then Some(s)
    else if !Enabled(c, s, StsGoesOn) then None
    else match Apply(c, s, StsGoesOn) case None => None case Some(t) => StsAlone(c, t, n - 1)
  }

  lemma {:induction false} StsAloneAdds(c: Config, s: State, n: nat, m: nat)
    requires ConfigOk(c) && StsAlone(c, s, n).Some?
    ensures StsAlone(c, s, n + m) == StsAlone(c, StsAlone(c, s, n).value, m)
    decreases n
  {
    hide Apply, Enabled, ConfigOk;
    if n > 0 {
      StsAloneAdds(c, Apply(c, s, StsGoesOn).value, n - 1, m);
    }
  }

  /** A feed announces exactly what it holds, and nobody is at it. */
  predicate Ready(s: State, f: Feed) {
    s.sem.feed.Get(f) == |s.feeds.Get(f)| && !FeedHeld(s, f)
  }

  function Minus(a: nat, b: nat): nat {
    if a > b then a - b else 0
  }

  /** `s` once STS has moved the first `n` processes of feed `f`, and stands at `sts`. */
  function Moved(s: State, f: Feed, n: nat, sts: Sts): State
    requires n <= |s.feeds.Get(f)| && n <= s.sem.feed.Get(f)
  {
    s.(lpl := s.lpl + s.feeds.Get(f)[..n], feeds := s.feeds.Set(f, s.feeds.Get(f)[n..]), sts := sts,
       sem := s.sem.(lpl := s.sem.lpl + n, stsIn := Minus(s.sem.stsIn, n),
                     feed := s.sem.feed.Set(f, s.sem.feed.Get(f) - n)))
  }

  /** One process of the feed. */
  lemma MovesOne(c: Config, s: State, i: nat)
    requires ConfigOk(c) && i < 4 && s.sts == STry(i) && Ready(s, c.order[i]) && s.feeds.Get(c.order[i]) != []
    ensures StsAlone(c, s, 5) == Some(Moved(s, c.order[i], 1, STry(i)))
  {
    hide StsAlone;
    var f := c.order[i];
    var q := s.feeds.Get(f);
    var a := s.(sem := s.sem.(feed := s.sem.feed.Set(f, s.sem.feed.Get(f) - 1)), sts := SMatch(i));
    OneStep(c, s, a, 4);
    var b := a.(sem := a.sem.(stsIn := Minus(a.sem.stsIn, 1)), sts := SPop(i));
    OneStep(c, a, b, 3);
    var d := b.(feeds := b.feeds.Set(f, q[1..]), sts := SHand(q[0], i));
    OneStep(c, b, d, 2);
    var e := d.(lpl := d.lpl + [q[0]], sts := SPushed(i));
    OneStep(c, d, e, 1);
    var t := e.(sem := e.sem.(lpl := e.sem.lpl + 1), sts := STry(i));
    OneStep(c, e, t, 0);
    NoStep(c, t);
    assert q[..1] == [q[0]];
  }

  lemma OneStep(c: Config, s: State, t: State, n: nat)
    requires ConfigOk(c) && Enabled(c, s, StsGoesOn) && Apply(c, s, StsGoesOn) == Some(t)
    ensures StsAlone(c, s, n + 1) == StsAlone(c, t, n)
  {
    hide Apply, Enabled, ConfigOk;
  }

  lemma NoStep(c: Config, s: State)
    requires ConfigOk(c)
    ensures StsAlone(c, s, 0) == Some(s)
  {
  }

  lemma MovedAgain(s: State, f: Feed, n: nat, sts: Sts, later: Sts)
    requires s.sem.feed.Get(f) == |s.feeds.Get(f)| >= n + 1
    ensures Moved(Moved(s, f, 1, sts), f, n, later) == Moved(s, f, n + 1, later)
  {
    var q := s.feeds.Get(f);
    assert q[..1] + q[1..][..n] == q[..n + 1] && q[1..][n..] == q[n + 1..];
    assert s.lpl + q[..1] + q[1..][..n] == s.lpl + (q[..1] + q[1..][..n]);
  }

  /** The whole feed, in its own order; then STS turns to the next one. */
  lemma {:induction false} DrainsFeed(c: Config, s: State, i: nat, k: nat)
    requires ConfigOk(c) && i < 4 && s.sts == STry(i) && Ready(s, c.order[i]) && k == |s.feeds.Get(c.order[i])|
    ensures StsAlone(c, s, 5 * k + 1) == Some(Moved(s, c.order[i], k, STry(i + 1)))
    decreases k
  {
    hide StsAlone, Moved;
    var f := c.order[i];
    if k == 0 {
      assert Moved(s, f, 0, STry(i + 1)) == s.(sts := STry(i + 1)) by { MovesNone(s, f, STry(i + 1)); }
      OneStep(c, s, s.(sts := STry(i + 1)), 0);
      NoStep(c, s.(sts := STry(i + 1)));
    } else {
      MovesOne(c, s, i);
      var t := Moved(s, f, 1, STry(i));
      MovedIs(s, f, 1, STry(i));
      StsAloneAdds(c, s, 5, 5 * (k - 1) + 1);
      DrainsFeed(c, t, i, k - 1);
      MovedAgain(s, f, k - 1, STry(i), STry(i + 1));
    }
  }

  lemma MovesNone(s: State, f: Feed, sts: Sts)
    ensures Moved(s, f, 0, sts) == s.(sts := sts)
  {
    assert s.lpl + [] == s.lpl;
  }

  lemma MovedIs(s: State, f: Feed, n: nat, sts: Sts)
    requires n <= |s.feeds.Get(f)| && n <= s.sem.feed.Get(f)
    ensures var t := Moved(s, f, n, sts);
            && t.sts == sts && t.lpl == s.lpl + s.feeds.Get(f)[..n]
            && t.feeds.Get(f) == s.feeds.Get(f)[n..] && t.sem.feed.Get(f) == s.sem.feed.Get(f) - n
            && (Ready(s, f) ==> Ready(t, f))
            && forall g :: g != f ==>
                 t.feeds.Get(g) == s.feeds.Get(g) && (Ready(s, g) ==> Ready(t, g))
  {
  }

  /** One after the other, from feed `i` on. */
  lemma {:induction false} DrainsFrom(c: Config, s: State, i: nat) returns (n: nat, t: State)
    requires ConfigOk(c) && i <= 4 && s.sts == STry(i) && forall j :: i <= j < 4 ==> Ready(s, c.order[j])
    ensures StsAlone(c, s, n) == Some(t) && t.sts == SWait && t.lpl == s.lpl + FeedsFrom(c, s, i)
    ensures forall j :: i <= j < 4 ==> t.feeds.Get(c.order[j]) == []
    ensures forall f :: (forall j :: i <= j < 4 ==> c.order[j] != f) ==> t.feeds.Get(f) == s.feeds.Get(f)
    decreases 4 - i
  {
    hide StsAlone, Moved, Ready;
    if i == 4 {
      t := s.(sts := SWait);
      n := 1;
      OneStep(c, s, t, 0);
      NoStep(c, t);
      assert t.lpl == s.lpl + [];
    } else {
      var f := c.order[i];
      ReadyCounts(s, f);
      var k := |s.feeds.Get(f)|;
      DrainsFeed(c, s, i, k);
      var r := Moved(s, f, k, STry(i + 1));
      MovedIs(s, f, k, STry(i + 1));
      OrderOnce(c, i);
      var m;
      m, t := DrainsFrom(c, r, i + 1);
      n := 5 * k + 1 + m;
      StsAloneAdds(c, s, 5 * k + 1, m);
      SameRest(c, s, r, i + 1);
      assert s.feeds.Get(f)[..k] == s.feeds.Get(f) && s.feeds.Get(f)[k..] == [];
      assert s.lpl + s.feeds.Get(f) + FeedsFrom(c, s, i + 1) == s.lpl + (s.feeds.Get(f) + FeedsFrom(c, s, i + 1));
    }
  }

  lemma ReadyCounts(s: State, f: Feed)
    requires Ready(s, f)
    ensures s.sem.feed.Get(f) == |s.feeds.Get(f)|
  {
  }

  lemma OrderOnce(c: Config, i: nat)
    requires ConfigOk(c) && i < 4
    ensures forall j :: 0 <= j < 4 && j != i ==> c.order[j] != c.order[i]
  {
    assert PLPN in c.order && PLPR in c.order && PLFQ in c.order && PLFIO in c.order;
  }

  /** What the feeds hold, from the `i`-th of the configured order on. */
  function FeedsFrom(c: Config, s: State, i: nat): seq<Proc>
    requires ConfigOk(c) && i <= 4
    decreases 4 - i
  {
    if i == 4 then [] else s.feeds.Get(c.order[i]) + FeedsFrom(c, s, i + 1)
  }

  lemma {:induction false} SameRest(c: Config, s: State, t: State, i: nat)
    requires ConfigOk(c) && i <= 4 && forall j :: i <= j < 4 ==> t.feeds.Get(c.order[j]) == s.feeds.Get(c.order[j])
    ensures FeedsFrom(c, t, i) == FeedsFrom(c, s, i)
    decreases 4 - i
  {
    if i < 4 {
      SameRest(c, s, t, i + 1);
    }
  }

  /**
   * A pass that nobody disturbs, with every feed announcing what it holds, appends the four feeds to LPL
   * whole, in the configured order, and leaves them empty.
   */
  lemma PassDrainsInOrder(c: Config, s: State) returns (n: nat, t: State)
    requires ConfigOk(c) && s.sts == STry(0) && forall f: Feed :: Ready(s, f)
    ensures StsAlone(c, s, n) == Some(t) && t.sts == SWait
    ensures t.lpl == s.lpl + (s.feeds.Get(c.order[0]) + s.feeds.Get(c.order[1])
                              + s.feeds.Get(c.order[2]) + s.feeds.Get(c.order[3]))
    ensures t.feeds == Four([], [], [], [])
  {
    hide StsAlone, Ready, FeedsFrom;
    n, t := DrainsFrom(c, s, 0);
    FourFeeds(c, s);
    AllEmpty(c, t);
  }

  lemma FourFeeds(c: Config, s: State)
    requires ConfigOk(c)
    ensures FeedsFrom(c, s, 0) == s.feeds.Get(c.order[0]) + s.feeds.Get(c.order[1])
                                + s.feeds.Get(c.order[2]) + s.feeds.Get(c.order[3])
  {
    var a, b := s.feeds.Get(c.order[0]), s.feeds.Get(c.order[1]);
    var d, e := s.feeds.Get(c.order[2]), s.feeds.Get(c.order[3]);
    hide *;
    FeedsFromNext(c, s, 0);
    FeedsFromNext(c, s, 1);
    FeedsFromNext(c, s, 2);
    FeedsFromNext(c, s, 3);
    assert a + (b + (d + (e + []))) == a + b + d + e;
  }

  lemma FeedsFromNext(c: Config, s: State, i: nat)
    requires ConfigOk(c) && i < 4
    ensures FeedsFrom(c, s, i) == s.feeds.Get(c.order[i]) + if i == 3 then [] else FeedsFrom(c, s, i + 1)
  {
    hide ConfigOk;
  }

  lemma AllEmpty(c: Config, t: State)
    requires ConfigOk(c) && forall j :: 0 <= j < 4 ==> t.feeds.Get(c.order[j]) == []
    ensures t.feeds == Four([], [], [], [])
  {
    forall f: Feed ensures t.feeds.Get(f) == [] {
      assert f in c.order;
    }
    assert t.feeds.Get(PLPN) == [] && t.feeds.Get(PLPR) == [] && t.feeds.Get(PLFQ) == [] && t.feeds.Get(PLFIO) == [];
  }

  /** From the wait on: STS wakes, puts its token back and drains the feeds in the configured order. */
  lemma WakingDrainsInOrder(c: Config, s: State) returns (n: nat, t: State)
    requires ConfigOk(c) && s.sts == SWait && s.sem.stsIn > 0 && forall f: Feed :: Ready(s, f)
    ensures StsAlone(c, s, n) == Some(t) && t.sts == SWait
    ensures t.lpl == s.lpl + (s.feeds.Get(c.order[0]) + s.feeds.Get(c.order[1])
                              + s.feeds.Get(c.order[2]) + s.feeds.Get(c.order[3]))
    ensures t.feeds == Four([], [], [], [])
  {
    hide *;
    StillReady(s);
    n, t := PassDrainsInOrder(c, s.(sts := STry(0)));
    WakesUp(c, s, n);
    n := n + 2;
  }

  lemma WakesUp(c: Config, s: State, n: nat)
    requires ConfigOk(c) && s.sts == SWait && s.sem.stsIn > 0
    ensures StsAlone(c, s, n + 2) == StsAlone(c, s.(sts := STry(0)), n)
  {
    hide StsAlone, ConfigOk;
    var a := s.(sem := s.sem.(stsIn := s.sem.stsIn - 1), sts := SBorrowed);
    OneStep(c, s, a, n + 1);
    OneStep(c, a, s.(sts := STry(0)), n);
  }

  lemma StillReady(s: State)
    ensures forall f: Feed :: Ready(s, f) ==> Ready(s.(sts := STry(0)), f)
    ensures forall f: Feed :: s.(sts := STry(0)).feeds.Get(f) == s.feeds.Get(f)
    ensures s.(sts := STry(0)).sts == STry(0) && s.(sts := STry(0)).lpl == s.lpl
  {
  }
}
