/** Claiming a GitHub webhook delivery, processing it, and completing or releasing the
    claim: the delivery table, `handleWebhook`, and every interleaving of handlers with
    failed and resent statements and crashes. */
module WebhookDeliveries {
  datatype RowStatus = Processing | Processed

  type Rows = map<string, RowStatus>

  // ----- The three statements -----

  /** INSERT … ON CONFLICT DO NOTHING. */
  function Begun(rows: Rows, d: string): Rows {
    if d in rows then rows else rows[d := Processing]
  }

  function Completed(rows: Rows, d: string): Rows {
    if d in rows then rows[d := Processed] else rows
  }

  /** DELETE … WHERE status = 'processing'. */
  function Released(rows: Rows, d: string): Rows {
    if d in rows && rows[d] == Processing then rows - {d} else rows
  }

  datatype Reply = Accepted | Duplicate | Failed

  /** What came back: a result, an error `query` answers by sending again, or another error. */
  datatype Answer = Answered | Dropped | Rejected

  /** How one sending of a statement ended: whether it took effect, and what came back. */
  datatype Ending = Ending(applied: bool, answer: Answer) {
    predicate Possible() { answer == Answered ==> applied }
  }

  class DeliveryTable {
    var rows: Rows

    constructor ()
      ensures rows == map[]
    {
      rows := map[];
    }

    method BeginWebhookDelivery(d: string) returns (claimed: bool)
      modifies this
      ensures claimed <==> d !in old(rows)
      ensures rows == Begun(old(rows), d)
    {
      claimed := d !in rows;
      if claimed {
        rows := rows[d := Processing];
      }
    }

    method CompleteWebhookDelivery(d: string, ending: Ending)
      modifies this
      ensures rows == if ending.applied then Completed(old(rows), d) else old(rows)
    {
      if ending.applied && d in rows {
        rows := rows[d := Processed];
      }
    }

    method ReleaseWebhookDelivery(d: string, ending: Ending)
      modifies this
      ensures rows == if ending.applied then Released(old(rows), d) else old(rows)
    {
      if ending.applied && d in rows && rows[d] == Processing {
        rows := rows - {d};
      }
    }

    /** One undisturbed handler, each statement ending as its last sending did: a fresh
        delivery ends processed iff its completion took effect, gone iff only its release did,
        and else claimed; a known one is a duplicate; other deliveries are not touched. */
    method HandleWebhook(d: string, processed: bool, complete: Ending, release: Ending) returns (reply: Reply)
      requires complete.Possible() && release.Possible()
      modifies this
      ensures reply == Duplicate <==> d in old(rows)
      ensures d in old(rows) ==> rows == old(rows)
      ensures d !in old(rows) ==>
                && (reply == Accepted <==> processed && complete.answer == Answered)
                && (d in rows && rows[d] == Processed <==> processed && complete.applied)
                && (rows == old(rows) <==> !(processed && complete.applied) && release.applied)
                && (d in rows && rows[d] == Processing <==> !(processed && complete.applied) && !release.applied)
      ensures forall x :: x != d ==> (x in rows <==> x in old(rows)) && (x in rows ==> rows[x] == old(rows)[x])
    {
      var claimed := BeginWebhookDelivery(d);
      if !claimed {
        return Duplicate;
      }
      if processed {
        CompleteWebhookDelivery(d, complete);
        if complete.answer == Answered {
          return Accepted;
        }
      }
      ReleaseWebhookDelivery(d, release);
      reply := Failed;
    }
  }

  // ----- Any number of handlers at once -----

  /** Where a handler is.  Claiming, Completing and Releasing wait to send their statement a
      second time; `done` tells whether the first sending took effect, which the handler
      does not know. */
  datatype Phase = Arrived | Claiming | Claimed | Worked | Completing(done: bool) | Failing | Releasing(done: bool) | Gone

  datatype Handler = Handler(delivery: string, phase: Phase)

  /** `marks` counts the times a row became processed, `works` the successful processings
      of an event, `misses` the completions that did not take effect. */
  datatype State = State(rows: Rows, handlers: map<nat, Handler>, marks: map<string, nat>,
                         works: map<string, nat>, misses: map<string, nat>)

  const Empty := State(map[], map[], map[], map[], map[])

  /** Begin, Complete and Release are one sending of the statement each. */
  datatype Event =
    | Arrive(h: nat, d: string)
    | Begin(h: nat, ending: Ending)
    | Process(h: nat, ok: bool)
    | Complete(h: nat, ending: Ending)
    | Release(h: nat, ending: Ending)
    | Crash(h: nat)

  function Count(m: map<string, nat>, d: string): nat {
    if d in m then m[d] else 0
  }

  function Bump(m: map<string, nat>, d: string): map<string, nat> {
    m[d := Count(m, d) + 1]
  }

  predicate InPhase(s: State, h: nat, d: string, p: Phase) {
    h in s.handlers && s.handlers[h] == Handler(d, p)
  }

  function To(s: State, h: nat, p: Phase): State
    requires h in s.handlers
  {
    s.(handlers := s.handlers[h := s.handlers[h].(phase := p)])
  }

  /** One atomic step; an event that does not fit the handler's phase does nothing. */
  function Next(s: State, e: Event): State {
    if e.Arrive? then if e.h in s.handlers then s else s.(handlers := s.handlers[e.h := Handler(e.d, Arrived)])
    else if e.h !in s.handlers then s
    else
      var phase := s.handlers[e.h].phase;
      match e
      case Begin(h, ending) =>
        if phase in {Arrived, Claiming} && ending.Possible() then SendBegin(s, h, ending) else s
      case Process(h, ok) =>
        if phase != Claimed then s
        else if ok then To(s, h, Worked).(works := Bump(s.works, s.handlers[h].delivery))
        else To(s, h, Failing)
      case Complete(h, ending) =>
        if (phase == Worked || phase.Completing?) && ending.Possible() then SendComplete(s, h, ending) else s
      case Release(h, ending) =>
        if (phase == Failing || phase.Releasing?) && ending.Possible() then SendRelease(s, h, ending) else s
      case Crash(h) => To(s, h, Gone)
  }

  function SendBegin(s: State, h: nat, ending: Ending): State
    requires h in s.handlers
  {
    var d := s.handlers[h].delivery;
    var after := if ending.answer == Answered then if d in s.rows then Gone else Claimed
                 else if ending.answer == Dropped && s.handlers[h].phase == Arrived then Claiming
                 else Gone;
    To(s, h, after).(rows := if ending.applied then Begun(s.rows, d) else s.rows)
  }

  function SendComplete(s: State, h: nat, ending: Ending): State
    requires h in s.handlers
  {
    var Handler(d, phase) := s.handlers[h];
    var done := ending.applied || (phase.Completing? && phase.done);
    var after := if ending.answer == Answered then Gone
                 else if ending.answer == Dropped && phase == Worked then Completing(done)
                 else Failing;
    To(s, h, after).(rows := if ending.applied then Completed(s.rows, d) else s.rows,
                     marks := if ending.applied && RowIs(s, d, Processing) then Bump(s.marks, d) else s.marks,
                     misses := if after == Failing && !done then Bump(s.misses, d) else s.misses)
  }

  function SendRelease(s: State, h: nat, ending: Ending): State
    requires h in s.handlers
  {
    var Handler(d, phase) := s.handlers[h];
    var after := if ending.answer == Dropped && phase == Failing then Releasing(ending.applied) else Gone;
    To(s, h, after).(rows := if ending.applied then Released(s.rows, d) else s.rows)
  }

  function Run(s: State, events: seq<Event>): State {
    if events == [] then s else Next(Run(s, events[..|events| - 1]), events[|events| - 1])
  }

  predicate RowIs(s: State, d: string, status: RowStatus) {
    d in s.rows && s.rows[d] == status
  }

  /** A handler that still holds the claim on its delivery. */
  predicate Holds(s: State, h: nat, d: string) {
    h in s.handlers && s.handlers[h].delivery == d && s.handlers[h].phase !in {Arrived, Claiming, Releasing(true), Gone}
  }

  /** The row of a claim, as far as its holder has come. */
  predicate HasRow(s: State, h: nat, d: string)
    requires Holds(s, h, d)
  {
    match s.handlers[h].phase
    case Failing => d in s.rows
    case Releasing(_) => d in s.rows
    case Completing(done) => RowIs(s, d, if done then Processed else Processing)
    case _ => RowIs(s, d, Processing)
  }

  /** At most one handler holds the claim, and a held claim has its row. */
  ghost predicate Exclusive(s: State, d: string) {
    && (forall h, k :: Holds(s, h, d) && Holds(s, k, d) ==> h == k)
    && (forall h :: Holds(s, h, d) ==> HasRow(s, h, d))
  }

  /** A release is sent again although it had taken effect, and deletes the row of a later claim. */
  predicate DeletesLaterClaim(s: State, e: Event, d: string) {
    e.Release? && InPhase(s, e.h, d, Releasing(true)) && e.ending.Possible() && e.ending.applied && RowIs(s, d, Processing)
  }

  /** And somebody holds that later claim. */
  ghost predicate StealsClaim(s: State, e: Event, d: string) {
    DeletesLaterClaim(s, e, d) && exists k :: Holds(s, k, d)
  }

  predicate Concerns(s: State, e: Event, d: string) {
    e.h in s.handlers && s.handlers[e.h].delivery == d
  }

  // ----- One sending -----

  /** An answered claim holds iff there was no row; after a first connection error the
      handler sends again; any other error ends it. */
  lemma BeginSent(s: State, h: nat, d: string, ending: Ending)
    requires ending.Possible() && (InPhase(s, h, d, Arrived) || InPhase(s, h, d, Claiming))
    ensures var s' := Next(s, Begin(h, ending));
            && s'.rows == (if ending.applied && d !in s.rows then s.rows[d := Processing] else s.rows)
            && (ending.answer == Answered ==> InPhase(s', h, d, if d in s.rows then Gone else Claimed))
            && (ending.answer == Dropped && InPhase(s, h, d, Arrived) ==> InPhase(s', h, d, Claiming))
            && (ending.answer == Dropped && InPhase(s, h, d, Claiming) ==> InPhase(s', h, d, Gone))
            && (ending.answer == Rejected ==> InPhase(s', h, d, Gone))
            && s'.works == s.works && s'.misses == s.misses && s'.marks == s.marks
  {
  }

  /** An answered completion ends the handler; after a first connection error it sends again;
      any other error makes it release, with a miss iff neither sending took effect. */
  lemma CompleteSent(s: State, h: nat, d: string, ending: Ending, again: bool, done: bool)
    requires ending.Possible() && InPhase(s, h, d, if again then Completing(done) else Worked) && (!again ==> !done)
    ensures var s' := Next(s, Complete(h, ending));
            && s'.rows == (if ending.applied && d in s.rows then s.rows[d := Processed] else s.rows)
            && (ending.answer == Answered ==> InPhase(s', h, d, Gone))
            && (ending.answer == Dropped && !again ==> InPhase(s', h, d, Completing(ending.applied)))
            && ((ending.answer == Dropped && again) || ending.answer == Rejected ==> InPhase(s', h, d, Failing))
            && Count(s'.misses, d) == Count(s.misses, d) + (if InPhase(s', h, d, Failing) && !done && !ending.applied then 1 else 0)
            && Count(s'.marks, d) == Count(s.marks, d) + (if ending.applied && RowIs(s, d, Processing) then 1 else 0)
            && s'.works == s.works
  {
  }

  /** A release ends the handler unless its first sending met a connection error. */
  lemma ReleaseSent(s: State, h: nat, d: string, ending: Ending, again: bool, done: bool)
    requires ending.Possible() && InPhase(s, h, d, if again then Releasing(done) else Failing)
    ensures var s' := Next(s, Release(h, ending));
            && s'.rows == (if ending.applied && RowIs(s, d, Processing) then s.rows - {d} else s.rows)
            && InPhase(s', h, d, if ending.answer == Dropped && !again then Releasing(ending.applied) else Gone)
            && s'.works == s.works && s'.misses == s.misses && s'.marks == s.marks
  {
  }

  /** A claimed event is processed once, or fails and is released. */
  lemma ProcessedOnce(s: State, h: nat, d: string, ok: bool)
    requires InPhase(s, h, d, Claimed)
    ensures var s' := Next(s, Process(h, ok));
            && s'.rows == s.rows && InPhase(s', h, d, if ok then Worked else Failing)
            && Count(s'.works, d) == Count(s.works, d) + (if ok then 1 else 0)
            && s'.misses == s.misses && s'.marks == s.marks
  {
  }

  // ----- One step -----

  predicate SameTables(s: State, s': State, d: string) {
    && (d in s'.rows <==> d in s.rows) && (d in s.rows ==> s'.rows[d] == s.rows[d])
    && Count(s'.marks, d) == Count(s.marks, d)
    && Count(s'.works, d) == Count(s.works, d) && Count(s'.misses, d) == Count(s.misses, d)
  }

  lemma OthersTablesUntouched(s: State, e: Event, d: string)
    requires !Concerns(s, e, d)
    ensures SameTables(s, Next(s, e), d)
  {
  }

  lemma OthersKeepTheirHandler(s: State, e: Event, k: nat)
    requires k != e.h
    ensures k in Next(s, e).handlers <==> k in s.handlers
    ensures k in s.handlers ==> Next(s, e).handlers[k] == s.handlers[k]
  {
  }

  lemma OthersUntouched(s: State, e: Event, d: string)
    requires !Concerns(s, e, d)
    ensures var s' := Next(s, e);
            && (forall h :: Holds(s', h, d) <==> Holds(s, h, d))
            && (forall h :: Holds(s, h, d) ==> s'.handlers[h] == s.handlers[h])
            && SameTables(s, s', d)
  {
    forall h ensures Holds(Next(s, e), h, d) <==> Holds(s, h, d)
             ensures Holds(s, h, d) ==> Next(s, e).handlers[h] == s.handlers[h]
    {
      if h != e.h {
        OthersKeepTheirHandler(s, e, h);
      }
    }
    OthersTablesUntouched(s, e, d);
  }

  /** What the acting handler may do to its own delivery. */
  lemma OwnStep(s: State, e: Event, d: string)
    requires Exclusive(s, d) && Concerns(s, e, d) && !DeletesLaterClaim(s, e, d)
    ensures var s' := Next(s, e);
            && (Holds(s', e.h, d) ==> (Holds(s, e.h, d) || d !in s.rows) && HasRow(s', e.h, d))
            && (!Holds(s, e.h, d) && d in s.rows ==> d in s'.rows && s'.rows[d] == s.rows[d])
  {
    assert Holds(s, e.h, d) ==> HasRow(s, e.h, d);
  }

  lemma StepKeepsExclusive(s: State, e: Event, d: string)
    requires Exclusive(s, d) && !StealsClaim(s, e, d)
    ensures Exclusive(Next(s, e), d)
  {
    if !Concerns(s, e, d) {
      OthersUntouched(s, e, d);
    } else if DeletesLaterClaim(s, e, d) {
      forall k ensures !Holds(Next(s, e), k, d) {
        assert !Holds(s, k, d);
        if k != e.h {
          OthersKeepTheirHandler(s, e, k);
        }
      }
    } else {
      OwnStep(s, e, d);
      var s' := Next(s, e);
      forall k | k != e.h && Holds(s', k, d)
        ensures Holds(s, k, d) && !Holds(s, e.h, d) && !Holds(s', e.h, d) && HasRow(s', k, d)
      {
        OthersKeepTheirHandler(s, e, k);
        assert HasRow(s, k, d);
      }
      assert forall h, k :: Holds(s', h, d) && Holds(s', k, d) && h != k ==> h != e.h && k != e.h;
    }
  }

  lemma StealBreaksExclusive(s: State, e: Event, d: string)
    requires StealsClaim(s, e, d)
    ensures !Exclusive(Next(s, e), d)
  {
    var k :| Holds(s, k, d);
    OthersKeepTheirHandler(s, e, k);
    assert Holds(Next(s, e), k, d);
  }
}
