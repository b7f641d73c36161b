/** What a logout and a purge are sure to remove, whatever runs beside them, and how long a started sign-in lasts. */
module SignInClearing {
  import opened Prelude
  import opened SignIn
  import opened SignInSafety
  import opened SignInRuns
  import opened SignInEviction

  // ----- results -----

  /** The published result of `s` is gone, or this call is still going to drop it. */
  predicate Due(t: Thread, g: Glance, s: string) {
    g.h.published.Some? &&
    (|| g.h.evicted
     || s in Listed(t)
     || (t.call.op.Logout? && t.pc == At(Other(Snapshot(t.call.op.session)))
         && g.h.published.value.session == Some(t.call.op.session)))
  }

  lemma ListShrinks(c: Core, i: int, t: Thread, choice: Choice, s: string)
    requires s in Listed(t)
    ensures var r := Micro(c, i, t, choice); s in Listed(r.1) || s !in r.0.results.at
  {
    hide Look, StepPoll, StepEnter, StepWork, StepLeave, Overdue, Lapse, Oldest, OfSession;
  }

  lemma SnapshotLists(c: Core, i: int, t: Thread, choice: Choice, s: string)
    requires t.call.op.Logout? && t.pc == At(Other(Snapshot(t.call.op.session))) && Tidy(c.results)
    requires s in c.results.at && c.results.at[s].session == Some(t.call.op.session)
    ensures s in Listed(Micro(c, i, t, choice).1)
  {
    OfSessionOf(c.results.order, c.results.at, t.call.op.session);
    hide OfSession;
  }

  lemma DueStays(c: Core, i: int, t: Thread, choice: Choice, s: string)
    requires LocalOk(c.lock, i, t, Look(c, t.call.state)) && StateOk(Look(c, s)) && Tidy(c.results)
    requires var c' := Micro(c, i, t, choice).0; StateOk(Look(c', s)) && Grows(c.Past(s), c'.Past(s))
    requires Due(t, Look(c, s), s)
    ensures var (c', t') := Micro(c, i, t, choice); Due(t', Look(c', s), s)
  {
    if !c.Past(s).evicted {
      if s in Listed(t) {
        ListShrinks(c, i, t, choice, s);
      } else {
        assert s in c.results.at && c.results.at[s] == c.Past(s).published.value;
        SnapshotLists(c, i, t, choice, s);
      }
    }
    hide Micro, Listed, LocalOk;
  }

  lemma DueNext(before: seq<Event>, e: Event, i: int, s: string)
    requires var w := Play(before); i in w.threads && Due(w.threads[i], Look(w.core, s), s)
    ensures var w' := Play(before + [e]); i in w'.threads && Due(w'.threads[i], Look(w'.core, s), s)
  {
    var w := Play(before);
    PlayStep(before, e);
    PlayOk(before);
    PlayOk(before + [e]);
    PlayKept(before);
    PlayLater(before, [e], i, s);
    assert ThreadOk(w.core, i, w.threads[i]) && StateOk(Look(w.core, s)) && StateOk(Look(Play(before + [e]).core, s));
    if e.Run? && e.thread == i {
      DueStays(w.core, i, w.threads[i], e.choice, s);
      hide *;
    } else {
      assert Play(before + [e]).threads[i] == w.threads[i];
      hide Micro, Play, StateOk, LocalOk, Listed;
    }
  }

  lemma {:induction false} DueLater(events: seq<Event>, more: seq<Event>, i: int, s: string)
    requires var w := Play(events); i in w.threads && Due(w.threads[i], Look(w.core, s), s)
    ensures var w' := Play(events + more); i in w'.threads && Due(w'.threads[i], Look(w'.core, s), s)
    decreases |more|
  {
    if more == [] {
      assert events + more == events;
    } else {
      var before, e := more[..|more| - 1], more[|more| - 1];
      DueLater(events, before, i, s);
      DueNext(events + before, e, i, s);
      assert events + more == (events + before) + [e];
    }
    hide *;
  }

  /** A logout that has finished leaves no result of its session that was stored when it was called, now or later. */
  lemma LogoutClears(events: seq<Event>, more: seq<Event>, i: int, session: string, s: string)
    requires var w := Play(events); i !in w.threads && s in w.core.results.at && w.core.results.at[s].session == Some(session)
    requires var w := Play(events + [Spawn(i, Logout(session))] + more);
             i in w.threads && w.threads[i].pc.next.Finished?
    ensures s !in Play(events + [Spawn(i, Logout(session))] + more).core.results.at
  {
    var called := events + [Spawn(i, Logout(session))];
    PlayOk(events);
    assert StateOk(Look(Play(events).core, s));
    PlayStep(events, Spawn(i, Logout(session)));
    CalledLists(Play(events), i, session, s);
    DueLater(called, more, i, s);
    PlayLater(called, more, i, s);
    PlayKept(called + more);
    var w := Play(called + more);
    assert CallOk(w.threads[i]);
    hide Play, StateOk, Look, Grows, Dropped;
  }

  lemma CalledLists(w: World, i: int, session: string, s: string)
    requires i !in w.threads && StateOk(Look(w.core, s)) && s in w.core.results.at && w.core.results.at[s].session == Some(session)
    ensures var w' := Next(w, Spawn(i, Logout(session)));
            i in w'.threads && w'.threads[i].call.op == Logout(session) && Due(w'.threads[i], Look(w'.core, s), s)
  {
  }

  /** A purge that has gone through the results leaves at most the newest hundred of those it found. */
  lemma PurgeTrims(events: seq<Event>, more: seq<Event>, i: int, choice: Choice, s: string, k: nat)
    requires var w := Play(events);
             && i in w.threads && w.threads[i].pc.Sweeping? && w.threads[i].pc.sweep == Expire([])
             && k < |w.core.results.order| - 100 && w.core.results.order[k] == s
    requires var w := Play(events + [Run(i, choice)] + more); i in w.threads && !w.threads[i].pc.Sweeping?
    ensures s !in Play(events + [Run(i, choice)] + more).core.results.at
  {
    var w, swept := Play(events), events + [Run(i, choice)];
    PlayOk(events);
    PlayKept(events);
    PlayStep(events, Run(i, choice));
    assert s in w.core.results.order;
    assert StateOk(Look(w.core, s));
    assert Oldest(w.core.results.order)[k] == s;
    assert s in Listed(Play(swept).threads[i]);
    DueLater(swept, more, i, s);
    PlayLater(events, [Run(i, choice)], i, s);
    PlayLater(swept, more, i, s);
    PlayKept(swept + more);
    assert CallOk(w.threads[i]) && CallOk(Play(swept + more).threads[i]);
    hide Play, StateOk, Grows, Dropped, Tidy;
  }

  // ----- flows -----

  lemma {:induction false} OverdueOf(order: seq<string>, flows: map<string, Flow>, clock: int)
    ensures forall s :: s in Overdue(order, flows, clock) <==> s in order && s in flows && flows[s].expires <= clock
  {
    if order != [] {
      OverdueOf(order[1..], flows, clock);
      assert order == [order[0]] + order[1..];
    }
  }

  /** The flow of `s` is gone, or this sweep is still going to drop it. */
  predicate Expiring(t: Thread, g: Glance, s: string) {
    g.h.named && (g.flow.None? || (t.pc.Sweeping? && t.pc.sweep.Expire? && s in t.pc.sweep.overdue))
  }

  lemma BeginExpires(c: Core, i: int, t: Thread, choice: Choice, s: string)
    requires t.pc.Sweeping? && t.pc.sweep.Begin? && Tidy(c.flows) && StateOk(Look(c, s))
    requires s in c.flows.at && c.flows.at[s].expires <= choice.clock
    ensures var (c', t') := Micro(c, i, t, choice); Expiring(t', Look(c', s), s)
  {
    OverdueOf(c.flows.order, c.flows.at, choice.clock);
    hide Overdue;
  }

  lemma ExpireShrinks(c: Core, i: int, t: Thread, choice: Choice, s: string)
    requires t.pc.Sweeping? && t.pc.sweep.Expire? && s in t.pc.sweep.overdue
    ensures var (c', t') := Micro(c, i, t, choice);
            s !in c'.flows.at || (t'.pc.Sweeping? && t'.pc.sweep.Expire? && s in t'.pc.sweep.overdue)
  {
    hide Oldest;
  }

  lemma ExpiringNext(before: seq<Event>, e: Event, i: int, s: string)
    requires var w := Play(before); i in w.threads && Expiring(w.threads[i], Look(w.core, s), s)
    ensures var w' := Play(before + [e]); i in w'.threads && Expiring(w'.threads[i], Look(w'.core, s), s)
  {
    var w := Play(before);
    var w' := Play(before + [e]);
    PlayStep(before, e);
    PlayOk(before);
    PlayLater(before, [e], i, s);
    FlowsStayGone(w, e, s);
    if e.Run? && e.thread == i && s in w.core.flows.at {
      ExpireShrinks(w.core, i, w.threads[i], e.choice, s);
    } else if !(e.Run? && e.thread == i) {
      assert w'.threads[i] == w.threads[i];
    }
    hide Micro, Play, StateOk, WorldOk;
  }

  lemma FlowsStayGone(w: World, e: Event, s: string)
    requires WorldOk(w)
    ensures w.core.Past(s).named && s !in w.core.flows.at ==> s !in Next(w, e).core.flows.at
  {
    if e.Run? && e.thread in w.threads {
      assert ThreadOk(w.core, e.thread, w.threads[e.thread]) && SweepOk(w.core, w.threads[e.thread]);
      StepKeeps(w.core, e.thread, w.threads[e.thread], e.choice, s, e.thread + 1);
    }
    hide Micro, StateOk, LocalOk, Grows;
  }

  lemma {:induction false} ExpiringLater(events: seq<Event>, more: seq<Event>, i: int, s: string)
    requires var w := Play(events); i in w.threads && Expiring(w.threads[i], Look(w.core, s), s)
    ensures var w' := Play(events + more); i in w'.threads && Expiring(w'.threads[i], Look(w'.core, s), s)
    decreases |more|
  {
    if more == [] {
      assert events + more == events;
    } else {
      var before, e := more[..|more| - 1], more[|more| - 1];
      ExpiringLater(events, before, i, s);
      ExpiringNext(events + before, e, i, s);
      assert events + more == (events + before) + [e];
    }
    hide *;
  }

  /** A finished purge leaves no flow whose time was up when it began, now or later. */
  lemma PurgeExpires(events: seq<Event>, more: seq<Event>, i: int, choice: Choice, s: string)
    requires var w := Play(events);
             && i in w.threads && w.threads[i].pc.Sweeping? && w.threads[i].pc.sweep.Begin?
             && s in w.core.flows.at && w.core.flows.at[s].expires <= choice.clock
    requires var w := Play(events + [Run(i, choice)] + more); i in w.threads && !w.threads[i].pc.Sweeping?
    ensures s !in Play(events + [Run(i, choice)] + more).core.flows.at
  {
    var w, swept := Play(events), events + [Run(i, choice)];
    PlayOk(events);
    PlayKept(events);
    PlayStep(events, Run(i, choice));
    assert StateOk(Look(w.core, s));
    BeginExpires(w.core, i, w.threads[i], choice, s);
    ExpiringLater(swept, more, i, s);
    hide Play, StateOk, Dropped, Tidy, WorldOk;
  }

  /** A state never named before is started for three hundred seconds from the clock of its purge. */
  lemma StartsForFiveMinutes(events: seq<Event>, i: int, choice: Choice)
    requires var w := Play(events); i in w.threads && w.threads[i].pc == At(Other(Issue)) && !w.core.Past(choice.newState).named
    ensures var w, w', s := Play(events), Play(events + [Run(i, choice)]), choice.newState;
            && s in w'.core.flows.at && w'.core.flows.at[s] == Flow(choice.provider, w.threads[i].clock + 300)
            && w'.core.Past(s).deadline == w.threads[i].clock + 300
            && forall x :: x != s ==> Look(w'.core, x) == Look(w.core, x)
  {
    var w := Play(events);
    PlayStep(events, Run(i, choice));
    forall x ensures x != choice.newState ==> Look(Play(events + [Run(i, choice)]).core, x) == Look(w.core, x) {
      IssueLook(w.core, i, w.threads[i], choice, x);
    }
  }
}
