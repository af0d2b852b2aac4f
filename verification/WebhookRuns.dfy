/** Whole runs of webhook handlers: how long a claim is exclusive, how often an event is
    processed, and what becomes of processed rows and of orphaned claims. */
module WebhookRuns {
  import opened Sequences
  import opened WebhookDeliveries

  // ----- Exclusive claims -----

  ghost predicate ExclusiveAt(events: seq<Event>, i: nat, d: string)
    requires i <= |events|
  {
    Exclusive(Run(Empty, events[..i]), d)
  }

  ghost predicate StolenAt(events: seq<Event>, i: nat, d: string)
    requires i < |events|
  {
    StealsClaim(Run(Empty, events[..i]), events[i], d)
  }

  lemma SamePrefix(events: seq<Event>, e: Event, d: string)
    ensures forall i: nat :: i <= |events| ==> ExclusiveAt(events + [e], i, d) == ExclusiveAt(events, i, d)
    ensures forall i: nat :: i < |events| ==> StolenAt(events + [e], i, d) == StolenAt(events, i, d)
  {
    forall i: nat | i <= |events|
      ensures ExclusiveAt(events + [e], i, d) == ExclusiveAt(events, i, d)
      ensures i < |events| ==> StolenAt(events + [e], i, d) == StolenAt(events, i, d)
    {
      assert (events + [e])[..i] == events[..i];
    }
  }

  /** Failures, resent statements and crashes notwithstanding, a delivery has at most one
      claim holder, with its row, all along a run exactly as long as no release that had
      taken effect is sent again while somebody else holds the claim. */
  lemma {:induction false} ExclusiveUntilStolen(events: seq<Event>, d: string)
    ensures (forall i: nat :: i <= |events| ==> ExclusiveAt(events, i, d))
       <==> forall i: nat :: i < |events| ==> !StolenAt(events, i, d)
  {
    if events == [] {
      assert ExclusiveAt(events, 0, d);
    } else {
      var n := |events| - 1;
      var init, e := events[..n], events[n];
      assert events == init + [e] && events[..n + 1] == events && init[..n] == init;
      ExclusiveUntilStolen(init, d);
      SamePrefix(init, e, d);
      if ExclusiveAt(init, n, d) {
        LastStep(init, e, d);
        assert ExclusiveAt(events, n + 1, d) == !StolenAt(events, n, d);
      }
    }
  }

  lemma LastStep(events: seq<Event>, e: Event, d: string)
    requires Exclusive(Run(Empty, events), d)
    ensures Exclusive(Run(Empty, events + [e]), d) <==> !StealsClaim(Run(Empty, events), e, d)
  {
    RunSnoc(Empty, events, e);
    if StealsClaim(Run(Empty, events), e, d) {
      StealBreaksExclusive(Run(Empty, events), e, d);
    } else {
      StepKeepsExclusive(Run(Empty, events), e, d);
    }
  }

  lemma RunSnoc(s: State, events: seq<Event>, e: Event)
    ensures Run(s, events + [e]) == Next(Run(s, events), e)
  {
    assert (events + [e])[..|events + [e]| - 1] == events;
  }

  const OK := Ending(true, Answered)
  const LOST := Ending(true, Dropped)

  /** A release takes effect but its answer is lost; the delivery is claimed anew; then the
      release is sent again. */
  function StealingRun(d: string): seq<Event> {
    [Arrive(0, d), Begin(0, OK)] + ([Process(0, false), Release(0, LOST)] + ([Arrive(1, d), Begin(1, OK)] + [Release(0, OK)]))
  }

  lemma {:induction false} RunConcat(s: State, events: seq<Event>, more: seq<Event>)
    ensures Run(s, events + more) == Run(Run(s, events), more)
  {
    if more == [] {
      assert events + more == events;
    } else {
      var n := |more| - 1;
      RunConcat(s, events, more[..n]);
      assert more == more[..n] + [more[n]];
      Assoc(events, more[..n], [more[n]]);
      RunSnoc(s, events + more[..n], more[n]);
    }
  }

  /** The first step of a run. */
  lemma RunFront(s: State, events: seq<Event>)
    requires events != []
    ensures Run(s, events) == Run(Next(s, events[0]), events[1..])
  {
    RunConcat(s, [events[0]], events[1..]);
    RunSnoc(s, [], events[0]);
    assert [events[0]] + events[1..] == events && [] + [events[0]] == [events[0]];
  }

  lemma RunOne(s: State, e: Event)
    ensures Run(s, [e]) == Next(s, e)
  {
    RunSnoc(s, [], e);
    assert [] + [e] == [e];
  }

  lemma RunTwo(s: State, a: Event, b: Event, more: seq<Event>)
    ensures Run(s, [a, b] + more) == Run(Next(Next(s, a), b), more)
  {
    RunFront(s, [a, b] + more);
    assert ([a, b] + more)[1..] == [b] + more && ([b] + more)[1..] == more;
    RunFront(Next(s, a), [b] + more);
  }

  lemma RunPair(s: State, a: Event, b: Event)
    ensures Run(s, [a, b]) == Next(Next(s, a), b)
  {
    RunTwo(s, a, b, []);
    assert [a, b] + [] == [a, b];
  }

  lemma ClaimAndFail(d: string)
    ensures var s := State(map[d := Processing], map[0 := Handler(d, Claimed)], map[], map[], map[]);
            && Next(Next(Empty, Arrive(0, d)), Begin(0, OK)) == s
            && Next(Next(s, Process(0, false)), Release(0, LOST)) ==
               State(map[], map[0 := Handler(d, Releasing(true))], map[], map[], map[])
  {
  }

  lemma StolenState(d: string)
    ensures Run(Empty, StealingRun(d)) ==
            State(map[], map[0 := Handler(d, Gone), 1 := Handler(d, Claimed)], map[], map[], map[])
  {
    var rest := [Arrive(1, d), Begin(1, OK)] + [Release(0, OK)];
    var s := Next(Next(Empty, Arrive(0, d)), Begin(0, OK));
    RunTwo(Empty, Arrive(0, d), Begin(0, OK), [Process(0, false), Release(0, LOST)] + rest);
    RunTwo(s, Process(0, false), Release(0, LOST), rest);
    ClaimAndFail(d);
    StolenFrom(d, Next(Next(s, Process(0, false)), Release(0, LOST)));
  }

  lemma ClaimAgainAndResend(d: string, s: State)
    requires s == State(map[], map[0 := Handler(d, Releasing(true))], map[], map[], map[])
    ensures var t := Next(Next(s, Arrive(1, d)), Begin(1, OK));
            && t == State(map[d := Processing], map[0 := Handler(d, Releasing(true)), 1 := Handler(d, Claimed)], map[], map[], map[])
            && Next(t, Release(0, OK)) == State(map[], map[0 := Handler(d, Gone), 1 := Handler(d, Claimed)], map[], map[], map[])
  {
  }

  lemma StolenFrom(d: string, s: State)
    requires s == State(map[], map[0 := Handler(d, Releasing(true))], map[], map[], map[])
    ensures Run(s, [Arrive(1, d), Begin(1, OK)] + [Release(0, OK)]) ==
            State(map[], map[0 := Handler(d, Gone), 1 := Handler(d, Claimed)], map[], map[], map[])
  {
    RunTwo(s, Arrive(1, d), Begin(1, OK), [Release(0, OK)]);
    RunOne(Next(Next(s, Arrive(1, d)), Begin(1, OK)), Release(0, OK));
    ClaimAgainAndResend(d, s);
  }

  /** A stolen claim lets the next delivery be claimed beside its holder. */
  lemma StolenMeansTwoHolders(s: State, e: Event, d: string, j: nat) returns (k: nat)
    requires StealsClaim(s, e, d) && j !in s.handlers
    ensures var t := Run(Next(s, e), [Arrive(j, d), Begin(j, OK)]);
            k != j && Holds(t, k, d) && Holds(t, j, d)
  {
    k :| Holds(s, k, d);
    var s', arrive, begin := Next(s, e), Arrive(j, d), Begin(j, OK);
    OthersKeepTheirHandler(s, e, k);
    RunPair(s', arrive, begin);
    OthersKeepTheirHandler(s', arrive, k);
    OthersKeepTheirHandler(Next(s', arrive), begin, k);
  }

  lemma TwoClaimed(s: State, d: string)
    requires s == State(map[], map[0 := Handler(d, Gone), 1 := Handler(d, Claimed)], map[], map[], map[])
    ensures Run(s, [Arrive(2, d), Begin(2, OK)]) ==
            State(map[d := Processing], map[0 := Handler(d, Gone), 1 := Handler(d, Claimed), 2 := Handler(d, Claimed)],
                  map[], map[], map[])
  {
    RunPair(s, Arrive(2, d), Begin(2, OK));
  }

  lemma TwoWorked(s: State, d: string)
    requires InPhase(s, 1, d, Claimed) && InPhase(s, 2, d, Claimed) && s.works == map[]
    ensures var t := Run(s, [Process(1, true), Process(2, true)]);
            Count(t.works, d) == 2 && t.misses == s.misses
  {
    RunPair(s, Process(1, true), Process(2, true));
  }

  /** And so a delivery can be processed twice although no completion was ever lost. */
  lemma StolenClaimProcessesTwice(d: string)
    ensures var t := Run(Empty, StealingRun(d) + [Arrive(2, d), Begin(2, OK)] + [Process(1, true), Process(2, true)]);
            Count(t.works, d) == 2 && Count(t.misses, d) == 0
  {
    var two, more := [Arrive(2, d), Begin(2, OK)], [Process(1, true), Process(2, true)];
    StolenState(d);
    RunConcat(Empty, StealingRun(d), two);
    RunConcat(Empty, StealingRun(d) + two, more);
    TwoClaimed(Run(Empty, StealingRun(d)), d);
    TwoWorked(Run(Empty, StealingRun(d) + two), d);
  }

  // ----- Marking and processing -----

  /** In every run without exception a row is marked processed once if it is, else never. */
  lemma {:induction false} MarkedOnce(events: seq<Event>, d: string)
    ensures Count(Run(Empty, events).marks, d) == if RowIs(Run(Empty, events), d, Processed) then 1 else 0
  {
    if events != [] {
      var n := |events| - 1;
      MarkedOnce(events[..n], d);
      StepKeepsMarks(Run(Empty, events[..n]), events[n], d);
    }
  }

  lemma StepKeepsMarks(s: State, e: Event, d: string)
    requires Count(s.marks, d) == if RowIs(s, d, Processed) then 1 else 0
    ensures Count(Next(s, e).marks, d) == if RowIs(Next(s, e), d, Processed) then 1 else 0
  {
    if !Concerns(s, e, d) {
      OthersTablesUntouched(s, e, d);
    }
  }

  /** Successful processings outnumber lost completions by at most one, and by none where
      the event may be processed again. */
  ghost predicate Counted(s: State, d: string) {
    && Count(s.works, d) <= Count(s.misses, d) + 1
    && (d !in s.rows ==> Count(s.works, d) <= Count(s.misses, d))
    && forall h :: Holds(s, h, d) && Unworked(s.handlers[h].phase) && RowIs(s, d, Processing) ==>
         Count(s.works, d) <= Count(s.misses, d)
  }

  predicate Unworked(p: Phase) {
    p == Claimed || p == Failing || p.Releasing?
  }

  lemma OwnCounted(s: State, e: Event, d: string)
    requires Exclusive(s, d) && Counted(s, d) && Concerns(s, e, d) && !DeletesLaterClaim(s, e, d)
    ensures var s' := Next(s, e);
            && Count(s'.works, d) <= Count(s'.misses, d) + 1
            && (d !in s'.rows ==> Count(s'.works, d) <= Count(s'.misses, d))
            && (Holds(s', e.h, d) && Unworked(s'.handlers[e.h].phase) && RowIs(s', d, Processing) ==>
                  Count(s'.works, d) <= Count(s'.misses, d))
  {
    assert Holds(s, e.h, d) ==> HasRow(s, e.h, d);
  }

  lemma StepKeepsCounted(s: State, e: Event, d: string)
    requires Exclusive(s, d) && Counted(s, d) && !DeletesLaterClaim(s, e, d)
    ensures Counted(Next(s, e), d)
  {
    if !Concerns(s, e, d) {
      OthersUntouched(s, e, d);
    } else {
      OwnCounted(s, e, d);
      StepKeepsExclusive(s, e, d);
      OthersAreCounted(s, e, d);
    }
  }

  /** While another handler holds the claim, the acting one changes no count. */
  lemma OthersAreCounted(s: State, e: Event, d: string)
    requires Exclusive(s, d) && Concerns(s, e, d) && !DeletesLaterClaim(s, e, d)
    ensures forall k :: k != e.h && Holds(Next(s, e), k, d) ==> Holds(s, k, d) && SameTables(s, Next(s, e), d)
    ensures forall k :: k != e.h && Holds(s, k, d) ==> Next(s, e).handlers[k] == s.handlers[k]
  {
    forall k | k != e.h && Holds(Next(s, e), k, d)
      ensures Holds(s, k, d) && SameTables(s, Next(s, e), d)
    {
      OthersKeepTheirHandler(s, e, k);
      OwnTablesUntouched(s, e, d, k);
    }
    forall k | k != e.h && Holds(s, k, d) ensures Next(s, e).handlers[k] == s.handlers[k] {
      OthersKeepTheirHandler(s, e, k);
    }
  }

  lemma OwnTablesUntouched(s: State, e: Event, d: string, k: nat)
    requires Exclusive(s, d) && Concerns(s, e, d) && !DeletesLaterClaim(s, e, d) && k != e.h && Holds(s, k, d)
    ensures SameTables(s, Next(s, e), d)
  {
    assert !Holds(s, e.h, d) && HasRow(s, k, d);
  }

  ghost predicate DeletedAt(events: seq<Event>, i: nat, d: string)
    requires i < |events|
  {
    DeletesLaterClaim(Run(Empty, events[..i]), events[i], d)
  }

  /** As long as no release that had taken effect is sent again and deletes the row of a later
      claim, held or not, an event is processed at most once more often than a completion
      of it was lost. */
  lemma {:induction false} ProcessedOncePerLostCompletion(events: seq<Event>, d: string)
    requires forall i: nat :: i < |events| ==> !DeletedAt(events, i, d)
    ensures Exclusive(Run(Empty, events), d) && Counted(Run(Empty, events), d)
  {
    if events != [] {
      var n := |events| - 1;
      var init := events[..n];
      forall i: nat | i < n ensures !DeletedAt(init, i, d) {
        assert init[..i] == events[..i] && !DeletedAt(events, i, d);
      }
      ProcessedOncePerLostCompletion(init, d);
      assert !DeletedAt(events, n, d);
      StepKeepsExclusive(Run(Empty, init), events[n], d);
      StepKeepsCounted(Run(Empty, init), events[n], d);
    }
  }

  // ----- What follows a state, over any further run -----

  /** Once processed, a delivery stays processed, even when a failed completion is followed
      by a release. */
  lemma {:induction false} ProcessedStays(s: State, events: seq<Event>, d: string)
    requires RowIs(s, d, Processed)
    ensures RowIs(Run(s, events), d, Processed)
  {
    if events != [] {
      ProcessedStays(s, events[..|events| - 1], d);
      ProcessedStep(Run(s, events[..|events| - 1]), events[|events| - 1], d);
    }
  }

  lemma ProcessedStep(s: State, e: Event, d: string)
    requires RowIs(s, d, Processed)
    ensures RowIs(Next(s, e), d, Processed) && Count(Next(s, e).marks, d) == Count(s.marks, d)
  {
    if !Concerns(s, e, d) {
      OthersTablesUntouched(s, e, d);
    }
  }

  /** Nobody is about to process the delivery's event or to report it done. */
  ghost predicate NobodyWorks(s: State, d: string) {
    forall h :: h in s.handlers && s.handlers[h].delivery == d ==> s.handlers[h].phase !in {Claimed, Worked}
  }

  lemma NobodyStarts(s: State, e: Event, d: string)
    requires NobodyWorks(s, d) && d in s.rows
    ensures NobodyWorks(Next(s, e), d) && Count(Next(s, e).works, d) == Count(s.works, d)
  {
    if !Concerns(s, e, d) {
      OthersTablesUntouched(s, e, d);
    }
    var s' := Next(s, e);
    forall h | h in s'.handlers && s'.handlers[h].delivery == d ensures s'.handlers[h].phase !in {Claimed, Worked} {
      if h != e.h {
        OthersKeepTheirHandler(s, e, h);
      }
    }
  }

  /** Once processed, every later delivery is a duplicate: over any further run, the row stays,
      nobody claims it, and the event is neither processed nor marked again. */
  lemma {:induction false} ProcessedIsFinal(s: State, events: seq<Event>, d: string)
    requires RowIs(s, d, Processed) && Exclusive(s, d)
    ensures var s' := Run(s, events);
            && RowIs(s', d, Processed) && NobodyWorks(s', d)
            && Count(s'.works, d) == Count(s.works, d) && Count(s'.marks, d) == Count(s.marks, d)
  {
    if events == [] {
      forall h | h in s.handlers && s.handlers[h].delivery == d ensures s.handlers[h].phase !in {Claimed, Worked} {
        assert Holds(s, h, d) ==> HasRow(s, h, d);
      }
    } else {
      var n := |events| - 1;
      ProcessedIsFinal(s, events[..n], d);
      ProcessedStep(Run(s, events[..n]), events[n], d);
      NobodyStarts(Run(s, events[..n]), events[n], d);
    }
  }

  /** A claim without a holder. */
  ghost predicate Orphaned(s: State, d: string) {
    RowIs(s, d, Processing) && forall h :: !Holds(s, h, d)
  }

  /** Somebody may send a release of the delivery again. */
  ghost predicate Resendable(s: State, d: string) {
    exists h :: InPhase(s, h, d, Releasing(true))
  }

  lemma OrphanStep(s: State, e: Event, d: string)
    requires Orphaned(s, d) && !Resendable(s, d)
    ensures var s' := Next(s, e);
            Orphaned(s', d) && !Resendable(s', d) && Count(s'.works, d) == Count(s.works, d)
  {
    var s' := Next(s, e);
    if !Concerns(s, e, d) {
      OthersTablesUntouched(s, e, d);
    } else {
      assert !Holds(s, e.h, d) && !InPhase(s, e.h, d, Releasing(true));
    }
    forall h ensures !Holds(s', h, d) && !InPhase(s', h, d, Releasing(true)) {
      assert !Holds(s, h, d) && !InPhase(s, h, d, Releasing(true));
      if h != e.h {
        OthersKeepTheirHandler(s, e, h);
      }
    }
  }

  lemma {:induction false} OrphanStays(s: State, events: seq<Event>, d: string)
    requires Orphaned(s, d) && !Resendable(s, d)
    ensures var s' := Run(s, events);
            Orphaned(s', d) && !Resendable(s', d) && Count(s'.works, d) == Count(s.works, d)
  {
    if events != [] {
      var n := |events| - 1;
      OrphanStays(s, events[..n], d);
      OrphanStep(Run(s, events[..n]), events[n], d);
    }
  }

  /** An orphaned claim is stuck for ever, its delivery neither claimed nor processed again,
      exactly when no handler is still to send an earlier release of it again. */
  lemma OrphanedClaimIsStuckIff(s: State, d: string)
    requires Orphaned(s, d)
    ensures (forall events :: Orphaned(Run(s, events), d)) <==> !Resendable(s, d)
    ensures !Resendable(s, d) ==> forall events :: Count(Run(s, events).works, d) == Count(s.works, d)
  {
    if h :| InPhase(s, h, d, Releasing(true)) {
      RunOne(s, Release(h, OK));
      assert !Orphaned(Run(s, [Release(h, OK)]), d);
    } else {
      forall events
        ensures Orphaned(Run(s, events), d) && Count(Run(s, events).works, d) == Count(s.works, d)
      {
        OrphanStays(s, events, d);
      }
    }
  }

  /** A failure can be claimed again exactly when its release took effect before the row
      was processed: the holder fails, releases, and the next handler holds the claim. */
  lemma ReleasedFailureIsClaimable(s: State, h: nat, ending: Ending, k: nat, d: string)
    requires InPhase(s, h, d, Failing) && Exclusive(s, d) && ending.Possible() && InPhase(s, k, d, Arrived)
    ensures Holds(Run(s, [Release(h, ending), Begin(k, OK)]), k, d) <==> ending.applied && RowIs(s, d, Processing)
  {
    assert Holds(s, h, d) && HasRow(s, h, d);
    RunPair(s, Release(h, ending), Begin(k, OK));
  }

  /** A crash of the holder orphans the claim. */
  lemma CrashOrphans(s: State, h: nat, d: string)
    requires InPhase(s, h, d, Claimed) && Exclusive(s, d)
    ensures Orphaned(Next(s, Crash(h)), d)
  {
    assert Holds(s, h, d) && HasRow(s, h, d);
    forall k ensures !Holds(Next(s, Crash(h)), k, d) {
      assert Holds(s, k, d) ==> k == h;
      if k != h {
        OthersKeepTheirHandler(s, Crash(h), k);
      }
    }
  }

  /** A claim that was stored but whose answer is lost is orphaned, however its second
      sending ends: that one meets the row of the first. */
  lemma LostClaimOrphans(s: State, h: nat, d: string, ending: Ending)
    requires InPhase(s, h, d, Arrived) && d !in s.rows && Exclusive(s, d) && ending.Possible()
    ensures Orphaned(Run(s, [Begin(h, LOST), Begin(h, ending)]), d)
  {
    var s' := Next(s, Begin(h, LOST));
    RunPair(s, Begin(h, LOST), Begin(h, ending));
    forall k ensures !Holds(Next(s', Begin(h, ending)), k, d) {
      assert Holds(s, k, d) ==> HasRow(s, k, d);
      if k != h {
        OthersKeepTheirHandler(s, Begin(h, LOST), k);
        OthersKeepTheirHandler(s', Begin(h, ending), k);
      }
    }
  }
}
