/**
 * Properties of the room view's pagination over whole sequences of events:
 * single flight of scrollback requests, events ignored during a cycle or a join,
 * the cap changing only through fillSpace, stale continuations after unmount,
 * and how many local rounds reveal the buffered timeline.
 */
module RoomProperties {
  import opened RoomModel

  /** Unfolding Legal and Run by one event. */
  lemma RunCons(w: Window, e: Event, es: seq<Event>)
    requires Inv(w) && Enabled(w, e)
    ensures Legal(w, [e] + es) == Legal(Step(w, e), es)
    ensures Legal(w, [e] + es) ==> Run(w, [e] + es) == Run(Step(w, e), es)
  {
    assert ([e] + es)[1..] == es;
  }

  /** Scrollback settlements among a sequence of events. */
  function Completions(es: seq<Event>): nat
    decreases |es|
  {
    if es == [] then 0 else Completed(es[0]) + Completions(es[1..])
  }

  /** Every scrollback issued is either settled by a later BackfillDone or still outstanding. */
  lemma {:induction false} ScrollbacksAccounted(w: Window, es: seq<Event>)
    requires Inv(w) && Legal(w, es)
    ensures Run(w, es).issued + w.outstanding == w.issued + Completions(es) + Run(w, es).outstanding
    decreases |es|
  {
    if es != [] {
      ScrollbacksAccounted(Step(w, es[0]), es[1..]);
    }
  }

  /**
   * Single flight, from creation on and for any interleaving of events: at most
   * one scrollback is outstanding, exactly while waiting_for_paginate is set, and
   * no request is issued before the previous one has settled.
   */
  lemma SingleFlight(timelineLength: nat, hasToken: bool, es: seq<Event>)
    requires Legal(Initial(timelineLength, hasToken), es)
    ensures var r := Run(Initial(timelineLength, hasToken), es);
      && r.outstanding <= 1
      && (r.outstanding == 1 <==> r.waiting)
      && r.issued <= Completions(es) + 1
  {
    ScrollbacksAccounted(Initial(timelineLength, hasToken), es);
  }

  /**
   * Timeline events that arrive during a growth cycle or while joining change
   * nothing at all, however many of them arrive.
   */
  lemma {:induction false} BusyIgnoresTimeline(w: Window, es: seq<Event>)
    requires Inv(w) && (w.paginating || w.joining)
    requires forall i :: 0 <= i < |es| ==> es[i].Timeline?
    ensures Legal(w, es) && Run(w, es) == w
    decreases |es|
  {
    if es != [] {
      assert Step(w, es[0]) == w;
      assert forall i :: 0 <= i < |es[1..]| ==> es[1..][i] == es[i + 1];
      BusyIgnoresTimeline(w, es[1..]);
    }
  }

  /** Only the handlers that call fillSpace change the cap (and there it only grows). */
  lemma {:induction false} CapChangesOnlyThroughFill(w: Window, es: seq<Event>)
    requires Inv(w) && Legal(w, es)
    requires forall i :: 0 <= i < |es| ==> !MayFill(es[i])
    ensures Run(w, es).messageCap == w.messageCap
    decreases |es|
  {
    if es != [] {
      assert forall i :: 0 <= i < |es[1..]| ==> es[1..][i] == es[i + 1];
      CapChangesOnlyThroughFill(Step(w, es[0]), es[1..]);
    }
  }

  /**
   * After unmount, late continuations (scrollback, join) and stray events leave
   * the React state and the room reloads untouched; only the instance field
   * waiting_for_paginate and the client's own Room data still change.
   */
  lemma {:induction false} UnmountedStateFrozen(w: Window, es: seq<Event>)
    requires Inv(w) && w.phase == Unmounted && Legal(w, es)
    ensures var r := Run(w, es);
      && r.phase == Unmounted
      && r.messageCap == w.messageCap && r.paginating == w.paginating
      && r.joining == w.joining && r.joinError == w.joinError
      && r.roomReloads == w.roomReloads
    decreases |es|
  {
    if es != [] {
      UnmountedStateFrozen(Step(w, es[0]), es[1..]);
    }
  }

  /** Rounds of local growth needed to reveal every buffered event: the gap divided by PAGINATE_SIZE, rounded up. */
  function LocalRounds(cap: nat, len: nat): nat {
    if len <= cap then 0 else (len - cap + PAGINATE_SIZE - 1) / PAGINATE_SIZE
  }

  /** The cap after k consecutive local rounds of fillSpace (none once the timeline is all revealed). */
  function RevealAfter(cap: nat, len: nat, k: nat): (r: nat)
    ensures cap <= len ==> cap <= r <= len
    decreases k
  {
    if k == 0 || len <= cap then cap else RevealAfter(LocalCap(cap, len), len, k - 1)
  }

  /**
   * Local growth terminates: LocalRounds rounds reveal exactly the whole buffered
   * timeline, never passing its length, and one round fewer does not.
   */
  lemma {:induction false} LocalGrowthReachesLength(cap: nat, len: nat)
    requires cap <= len
    ensures RevealAfter(cap, len, LocalRounds(cap, len)) == len
    ensures LocalRounds(cap, len) > 0 ==> RevealAfter(cap, len, LocalRounds(cap, len) - 1) < len
    decreases len - cap
  {
    if cap < len {
      var next := LocalCap(cap, len);
      if next < len {
        assert next == cap + PAGINATE_SIZE;
        assert LocalRounds(next, len) == LocalRounds(cap, len) - 1;
        LocalGrowthReachesLength(next, len);
      } else {
        assert LocalRounds(cap, len) == 1;
      }
    }
  }

  /** Each local round removes one of the rounds still needed. */
  lemma LocalRoundsStep(cap: nat, len: nat)
    requires cap < len
    ensures LocalRounds(LocalCap(cap, len), len) == LocalRounds(cap, len) - 1
  {
    if LocalCap(cap, len) < len {
      assert LocalCap(cap, len) == cap + PAGINATE_SIZE;
    } else {
      assert LocalRounds(cap, len) == 1;
    }
  }

  /**
   * A cycle that has just grown locally and waits for its re-render: mounted, the
   * list shown, no scrollback awaited, the captured height equal to the current
   * one, the view near the top and a token present.
   */
  predicate LocalCyclePending(w: Window) {
    && Inv(w) && w.phase == Mounted && w.listShown
    && w.paginating && !w.waiting
    && w.oldScrollHeight == Some(w.scrollHeight)
    && NearTop(w) && w.hasToken
  }

  /**
   * With buffered events beyond the cap, the re-render of such a cycle is one
   * local round of fillSpace: the cap becomes LocalCap, no request is issued, and
   * the cycle is pending again; nothing else changes.
   */
  lemma UpdateIsLocalRound(w: Window)
    requires LocalCyclePending(w) && w.messageCap < w.timelineLength
    ensures Enabled(w, Update)
    ensures var r := Step(w, Update);
      && r == w.(messageCap := LocalCap(w.messageCap, w.timelineLength))
      && LocalCyclePending(r)
  {
  }

  /** k re-renders in a row, with no other event between them. */
  function Updates(k: nat): (es: seq<Event>)
    ensures |es| == k && forall i :: 0 <= i < k ==> es[i] == Update
  {
    seq(k, _ => Update)
  }

  /**
   * The machine makes the local rounds: up to LocalRounds re-renders of a pending
   * local cycle are legal, issue no request, and leave the cap where k rounds of
   * LocalCap put it, with everything else as it was.
   */
  lemma {:induction false} UpdatesReveal(w: Window, k: nat)
    requires LocalCyclePending(w) && w.messageCap <= w.timelineLength
    requires k <= LocalRounds(w.messageCap, w.timelineLength)
    ensures Legal(w, Updates(k))
    ensures Run(w, Updates(k)) == w.(messageCap := RevealAfter(w.messageCap, w.timelineLength, k))
    decreases k
  {
    if k > 0 {
      UpdateIsLocalRound(w);
      var next := Step(w, Update);
      LocalRoundsStep(w.messageCap, w.timelineLength);
      UpdatesReveal(next, k - 1);
      assert Updates(k) == [Update] + Updates(k - 1);
      RunCons(w, Update, Updates(k - 1));
    }
  }

  /**
   * Termination of local growth in the machine: from a pending local cycle,
   * LocalRounds re-renders reveal exactly the whole buffered timeline, with the
   * cycle still running and no scrollback issued.
   */
  lemma LocalCycleReachesLength(w: Window)
    requires LocalCyclePending(w) && w.messageCap <= w.timelineLength
    ensures var es := Updates(LocalRounds(w.messageCap, w.timelineLength));
      Legal(w, es) &&
      var r := Run(w, es);
      && r.messageCap == w.timelineLength
      && r.paginating && !r.waiting
      && r.issued == w.issued && r.outstanding == w.outstanding
  {
    UpdatesReveal(w, LocalRounds(w.messageCap, w.timelineLength));
    LocalGrowthReachesLength(w.messageCap, w.timelineLength);
  }

  /** One event without a token: fillSpace declines in every handler that calls it. */
  lemma StepWithoutToken(w: Window, e: Event)
    requires Inv(w) && Enabled(w, e) && !w.hasToken && !BringsToken(e)
    ensures !Step(w, e).hasToken && Step(w, e).messageCap == w.messageCap
  {
    match e
    case Mount =>
      if w.listShown {
        assert !FillSpace(w.(phase := Mounted, scrollTop := w.scrollHeight)).1;
      }
    case Update =>
      if w.listShown && w.paginating && !w.waiting {
        var w1 := w.(scrollTop := w.scrollTop + (w.scrollHeight - w.oldScrollHeight.value),
                     oldScrollHeight := None);
        assert !FillSpace(w1).1;
      }
    case _ =>
  }

  /**
   * Without a pagination token the cap is frozen: no sequence of events that does
   * not bring a token changes it, however many events are buffered beyond it.
   */
  lemma {:induction false} NoTokenCapFrozen(w: Window, es: seq<Event>)
    requires Inv(w) && !w.hasToken && Legal(w, es)
    requires forall i :: 0 <= i < |es| ==> !BringsToken(es[i])
    ensures Run(w, es).messageCap == w.messageCap && !Run(w, es).hasToken
    decreases |es|
  {
    if es != [] {
      assert forall i :: 0 <= i < |es[1..]| ==> es[1..][i] == es[i + 1];
      StepWithoutToken(w, es[0]);
      NoTokenCapFrozen(Step(w, es[0]), es[1..]);
    }
  }

  /**
   * A room with 100 buffered events and a token, whose list is shorter than the
   * screen: mounting issues one scrollback; the server returns 20 older events and
   * no further token; the next update anchors the view and ends the cycle with
   * the cap at 120 and one request in all.
   */
  lemma BackfillScenario()
    ensures var es := [Layout(true, 0, 500, 300), Mount, BackfillDone(120, false),
                       Layout(true, 300, 500, 420), Update];
      Legal(Initial(100, true), es) &&
      var r := Run(Initial(100, true), es);
      r.messageCap == 120 && !r.paginating && r.scrollTop == 420 && r.issued == 1 && r.outstanding == 0
  {
    var e1, e2, e3, e4, e5 := Layout(true, 0, 500, 300), Mount, BackfillDone(120, false),
                              Layout(true, 300, 500, 420), Update;
    var w0 := Initial(100, true);
    var w1 := Step(w0, e1);
    var w2 := Step(w1, e2);
    assert w2.waiting && w2.messageCap == 120 && w2.outstanding == 1 && w2.issued == 1;
    var w3 := Step(w2, e3);
    var w4 := Step(w3, e4);
    var w5 := Step(w4, e5);
    assert w5.scrollTop == 420 && !w5.paginating && w5.messageCap == 120;
    RunChain(w0, e1, e2, e3, e4, e5);
  }

  /**
   * A join that fails with "forbidden": a live event that arrives while joining
   * is not reconciled, and afterwards the spinner is gone and the error is recorded.
   */
  lemma JoinFailureScenario()
    ensures var es := [Layout(true, 900, 500, 1400), Mount, JoinClick,
                       Timeline(true, false), JoinError("forbidden")];
      Legal(Initial(100, true), es) &&
      var r := Run(Initial(100, true), es);
      !r.joining && r.joinError == Some("forbidden") && r.roomReloads == 0
  {
    var e1, e2, e3, e4, e5 := Layout(true, 900, 500, 1400), Mount, JoinClick,
                              Timeline(true, false), JoinError("forbidden");
    var w0 := Initial(100, true);
    var w1 := Step(w0, e1);
    var w2 := Step(w1, e2);
    assert !w2.paginating;
    var w3 := Step(w2, e3);
    var w4 := Step(w3, e4);
    assert w4 == w3;
    RunChain(w0, e1, e2, e3, e4, e5);
  }

  /** Legal and Run on five events that are each enabled in turn. */
  lemma RunChain(w0: Window, e1: Event, e2: Event, e3: Event, e4: Event, e5: Event)
    requires Inv(w0) && Enabled(w0, e1)
    requires Enabled(Step(w0, e1), e2)
    requires Enabled(Step(Step(w0, e1), e2), e3)
    requires Enabled(Step(Step(Step(w0, e1), e2), e3), e4)
    requires Enabled(Step(Step(Step(Step(w0, e1), e2), e3), e4), e5)
    ensures Legal(w0, [e1, e2, e3, e4, e5])
    ensures Run(w0, [e1, e2, e3, e4, e5]) == Step(Step(Step(Step(Step(w0, e1), e2), e3), e4), e5)
  {
    var w1 := Step(w0, e1);
    var w2 := Step(w1, e2);
    var w3 := Step(w2, e3);
    var w4 := Step(w3, e4);
    RunCons(w4, e5, []);
    assert [e5] + [] == [e5];
    RunCons(w3, e4, [e5]);
    assert [e4] + [e5] == [e4, e5];
    RunCons(w2, e3, [e4, e5]);
    assert [e3] + [e4, e5] == [e3, e4, e5];
    RunCons(w1, e2, [e3, e4, e5]);
    assert [e2] + [e3, e4, e5] == [e2, e3, e4, e5];
    RunCons(w0, e1, [e2, e3, e4, e5]);
    assert [e1] + [e2, e3, e4, e5] == [e1, e2, e3, e4, e5];
  }
}
