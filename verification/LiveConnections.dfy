/** Checking connections out of a pool whose connections may be dead: `withClient`,
    `acquireLiveClient` and `query`. */
module LiveConnections {
  import opened Sequences

  type Connection = nat

  /** A database failure; `retryable` is the verdict of `isRetryableConnectionError`. */
  datatype Failure = Failure(retryable: bool, code: string)

  datatype Event = CheckedOut(c: Connection) | Probed(c: Connection, alive: bool) | Ran(c: Connection)
                 | Returned(c: Connection) | Destroyed(c: Connection)

  /** What the outside world answers during one call: each connect may be refused or hand
      out any idle connection or a new one, each probe and the callback may fail. */
  datatype Connect = Refused(failure: Failure) | Reuse(c: Connection) | Open

  datatype Script = Script(connect: Connect, probe: Option<Failure>, reconnect: Connect, reprobe: Option<Failure>,
                           callback: Option<Failure>)

  datatype Result = Completed | Failed(failure: Failure)

  /** Handed back to the pool, for reuse or for destruction. */
  predicate HandsBack(e: Event, c: Connection) {
    e == Returned(c) || e == Destroyed(c)
  }

  /** The callback runs at most once, right after a successful probe of its connection. */
  ghost predicate RunsOnceAndLive(events: seq<Event>) {
    && (forall i, j :: 0 <= i < |events| && 0 <= j < |events| && events[i].Ran? && events[j].Ran? ==> i == j)
    && (forall i :: 0 <= i < |events| && events[i].Ran? ==> i > 0 && events[i - 1] == Probed(events[i].c, true))
  }

  ghost predicate TwoAtMost(events: seq<Event>) {
    forall i, j, k :: 0 <= i < j < k < |events| ==>
      !(events[i].CheckedOut? && events[j].CheckedOut? && events[k].CheckedOut?)
  }

  ghost predicate AllHandedBack(events: seq<Event>) {
    forall i :: 0 <= i < |events| && events[i].CheckedOut? ==> HandedBackOnce(events, i)
  }

  ghost predicate DeadNeverReturned(events: seq<Event>) {
    forall i, j :: 0 <= i < |events| && 0 <= j < |events| && events[i].Probed? && !events[i].alive
                   ==> events[j] != Returned(events[i].c)
  }

  /** Everything promised of the events of one call. */
  ghost predicate Disciplined(events: seq<Event>) {
    RunsOnceAndLive(events) && TwoAtMost(events) && AllHandedBack(events) && DeadNeverReturned(events)
  }

  ghost predicate HandedBackOnce(events: seq<Event>, i: nat)
    requires i < |events|
  {
    exists j :: i < j < |events| && HandsBack(events[j], events[i].c)
             && forall k :: 0 <= k < |events| && k != j ==> !HandsBack(events[k], events[i].c)
  }

  /** What the events make of the idle and of the destroyed connections. */
  function IdleAfter(idle: set<Connection>, events: seq<Event>): set<Connection> {
    if events == [] then idle
    else
      var before := IdleAfter(idle, events[..|events| - 1]);
      var e := events[|events| - 1];
      if e.CheckedOut? then before - {e.c} else if e.Returned? then before + {e.c} else before
  }

  function GoneAfter(gone: set<Connection>, events: seq<Event>): set<Connection> {
    if events == [] then gone
    else
      var before := GoneAfter(gone, events[..|events| - 1]);
      var e := events[|events| - 1];
      if e.Destroyed? then before + {e.c} else before
  }

  lemma AfterSnoc(idle: set<Connection>, gone: set<Connection>, events: seq<Event>, e: Event)
    ensures IdleAfter(idle, events + [e]) ==
            if e.CheckedOut? then IdleAfter(idle, events) - {e.c}
            else if e.Returned? then IdleAfter(idle, events) + {e.c}
            else IdleAfter(idle, events)
    ensures GoneAfter(gone, events + [e]) == if e.Destroyed? then GoneAfter(gone, events) + {e.c} else GoneAfter(gone, events)
  {
    assert (events + [e])[..|events + [e]| - 1] == events;
  }

  lemma {:induction false} AfterConcat(idle: set<Connection>, gone: set<Connection>, a: seq<Event>, b: seq<Event>)
    ensures IdleAfter(idle, a + b) == IdleAfter(IdleAfter(idle, a), b)
    ensures GoneAfter(gone, a + b) == GoneAfter(GoneAfter(gone, a), b)
  {
    if b == [] {
      NoMore(a);
    } else {
      AfterConcat(idle, gone, a, b[..|b| - 1]);
      InitOfConcat(a, b);
    }
  }

  class Pool {
    var idle: set<Connection>
    var out: set<Connection>
    var gone: set<Connection>
    var next: Connection
    var log: seq<Event>

    ghost predicate Valid()
      reads this
    {
      && idle !! out !! gone
      && forall c :: c in idle || c in out || c in gone ==> c < next
    }

    constructor ()
      ensures Valid() && idle == {} && out == {} && log == []
    {
      idle, out, gone, next, log := {}, {}, {}, 0, [];
    }

    method Connect(answer: Connect) returns (client: Option<Connection>)
      requires Valid()
      modifies this
      ensures Valid() && gone == old(gone)
      ensures client.None? <==> answer.Refused?
      ensures client.None? ==> idle == old(idle) && out == old(out) && log == old(log)
      ensures client.Some? ==> client.value !in old(out) && client.value !in gone
      ensures client.Some? ==> out == old(out) + {client.value} && idle == old(idle) - {client.value}
      ensures client.Some? ==> log == old(log) + [CheckedOut(client.value)]
    {
      if answer.Refused? {
        return None;
      }
      var c := if answer.Reuse? && answer.c in idle then answer.c else next;
      next := if c == next then next + 1 else next;
      idle, out := idle - {c}, out + {c};
      log := log + [CheckedOut(c)];
      client := Some(c);
    }

    method Probe(c: Connection, failure: Option<Failure>)
      modifies `log
      ensures log == old(log) + [Probed(c, failure.None?)]
    {
      log := log + [Probed(c, failure.None?)];
    }

    method Release(c: Connection, destroy: bool)
      requires Valid() && c in out
      modifies this
      ensures Valid() && out == old(out) - {c}
      ensures idle == if destroy then old(idle) else old(idle) + {c}
      ensures gone == if destroy then old(gone) + {c} else old(gone)
      ensures log == old(log) + [if destroy then Destroyed(c) else Returned(c)]
    {
      out := out - {c};
      if destroy {
        gone := gone + {c};
        log := log + [Destroyed(c)];
      } else {
        idle := idle + {c};
        log := log + [Returned(c)];
      }
    }

    /** The first connection and its probe; a failed probe destroys the connection. */
    method ConnectAndProbe(connect: Connect, probe: Option<Failure>) returns (client: Option<Connection>, ghost events: seq<Event>)
      requires Valid()
      modifies this
      ensures Valid() && log == old(log) + events && old(gone) <= gone
      ensures idle == IdleAfter(old(idle), events) && gone == GoneAfter(old(gone), events)
      ensures client.Some? <==> !connect.Refused? && probe.None?
      ensures client.Some? ==> client.value !in old(out) && client.value !in gone && out == old(out) + {client.value}
                               && idle == old(idle) - {client.value}
                               && events == [CheckedOut(client.value), Probed(client.value, true)]
      ensures client.None? ==> out == old(out) && idle <= old(idle)
      ensures client.None? && connect.Refused? ==> events == [] && idle == old(idle)
      ensures client.None? && !connect.Refused? ==>
                (|events| == 3 && events == [CheckedOut(events[0].c), Probed(events[0].c, false), Destroyed(events[0].c)]
                 && events[0].c in gone && events[0].c !in old(gone))
    {
      client := Connect(connect);
      if client.None? {
        return None, [];
      }
      var c := client.value;
      Probe(c, probe);
      events := [CheckedOut(c), Probed(c, probe.None?)];
      AfterSnoc(old(idle), old(gone), [], CheckedOut(c));
      AfterSnoc(old(idle), old(gone), [CheckedOut(c)], Probed(c, probe.None?));
      assert [] + [CheckedOut(c)] == [CheckedOut(c)] && [CheckedOut(c)] + [Probed(c, probe.None?)] == events;
      if probe.Some? {
        AfterSnoc(old(idle), old(gone), events, Destroyed(c));
        Release(c, true);
        events := events + [Destroyed(c)];
        client := None;
      }
    }

    method AcquireLiveClient(script: Script) returns (client: Option<Connection>, failure: Option<Failure>, ghost events: seq<Event>)
      requires Valid()
      modifies this
      ensures Valid() && log == old(log) + events
      ensures idle == IdleAfter(old(idle), events) && gone == GoneAfter(old(gone), events)
      ensures client.Some? <==> Alive(script)
      ensures failure == if Alive(script) then None else Some(LastFailure(script))
      ensures client.Some? ==> client.value !in old(out) && out == old(out) + {client.value} && Acquires(events, client.value)
      ensures client.None? ==> out == old(out) && Disciplined(events) && (forall i :: 0 <= i < |events| ==> !events[i].Ran?)
    {
      client, events := ConnectAndProbe(script.connect, script.probe);
      if client.Some? {
        return client, None, events;
      }
      if script.connect.Refused? {
        return None, Some(script.connect.failure), events;
      }
      DeadIsDisciplined(events);
      if !script.probe.value.retryable {
        return None, script.probe, events;
      }
      ghost var first := events;
      client, events := ConnectAndProbe(script.reconnect, script.reprobe);
      AfterConcat(old(idle), old(gone), first, events);
      events := first + events;
      if client.Some? {
        return client, None, events;
      }
      if script.reconnect.Refused? {
        assert events == first;
        return None, Some(script.reconnect.failure), events;
      }
      TwiceDeadIsDisciplined(events);
      failure := script.reprobe;
    }

    /** The callback runs at most once and only on a connection that just passed its probe;
        every connection checked out is handed back exactly once and one whose probe failed
        never to the idle set; nothing stays checked out.  The callback runs iff a live
        connection was found. */
    method WithClient(script: Script) returns (result: Result, ghost events: seq<Event>)
      requires Valid()
      modifies this
      ensures Valid() && out == old(out) && log == old(log) + events
      ensures Disciplined(events)
      ensures idle == IdleAfter(old(idle), events) && gone == GoneAfter(old(gone), events)
      ensures result == Completed <==>
                && !script.connect.Refused? && script.callback.None?
                && (script.probe.None? || (script.probe.value.retryable && !script.reconnect.Refused? && script.reprobe.None?))
      ensures result.Failed? ==>
                result.failure ==
                if script.connect.Refused? then script.connect.failure
                else if script.probe.Some? && !script.probe.value.retryable then script.probe.value
                else if script.probe.Some? && script.reconnect.Refused? then script.reconnect.failure
                else if script.probe.Some? && script.reprobe.Some? then script.reprobe.value
                else script.callback.value
      ensures (exists i :: 0 <= i < |events| && events[i].Ran?) <==>
                !script.connect.Refused?
                && (script.probe.None? || (script.probe.value.retryable && !script.reconnect.Refused? && script.reprobe.None?))
    {
      var client, failure;
      client, failure, events := AcquireLiveClient(script);
      if client.None? {
        return Failed(failure.value), events;
      }
      var c := client.value;
      log := log + [Ran(c)];
      Release(c, false);
      LiveIsDisciplined(events, c);
      AfterSnoc(old(idle), old(gone), events, Ran(c));
      AfterSnoc(old(idle), old(gone), events + [Ran(c)], Returned(c));
      SnocTwice(events, Ran(c), Returned(c));
      assert (events + [Ran(c), Returned(c)])[|events|] == Ran(c);
      events := events + [Ran(c), Returned(c)];
      result := if script.callback.None? then Completed else Failed(script.callback.value);
    }
  }

  /** A live connection is found at the first attempt, or at the second after a retryable
      probe failure. */
  predicate Alive(script: Script) {
    || (!script.connect.Refused? && script.probe.None?)
    || (!script.connect.Refused? && script.probe.Some? && script.probe.value.retryable
        && !script.reconnect.Refused? && script.reprobe.None?)
  }

  /** What went wrong last when no live connection was found. */
  function LastFailure(script: Script): Failure
    requires !Alive(script)
  {
    if script.connect.Refused? then script.connect.failure
    else if !script.probe.value.retryable then script.probe.value
    else if script.reconnect.Refused? then script.reconnect.failure
    else script.reprobe.value
  }

  /** The events that end with a live connection in hand. */
  ghost predicate Acquires(events: seq<Event>, c: Connection) {
    || events == [CheckedOut(c), Probed(c, true)]
    || (|events| == 5 && events[0].c != c
        && events == [CheckedOut(events[0].c), Probed(events[0].c, false), Destroyed(events[0].c), CheckedOut(c), Probed(c, true)])
  }

  lemma DeadIsDisciplined(events: seq<Event>)
    requires |events| == 3 && events == [CheckedOut(events[0].c), Probed(events[0].c, false), Destroyed(events[0].c)]
    ensures Disciplined(events)
  {
    assert HandsBack(events[2], events[0].c);
  }

  lemma TwiceDeadIsDisciplined(events: seq<Event>)
    requires |events| == 6 && events[0].c != events[3].c
    requires events == [CheckedOut(events[0].c), Probed(events[0].c, false), Destroyed(events[0].c),
                        CheckedOut(events[3].c), Probed(events[3].c, false), Destroyed(events[3].c)]
    ensures Disciplined(events)
  {
    HandedBackAt(events, 0, 2);
    HandedBackAt(events, 3, 5);
  }

  lemma HandedBackAt(events: seq<Event>, i: nat, j: nat)
    requires i < j < |events| && HandsBack(events[j], events[i].c)
    requires forall k :: 0 <= k < |events| && k != j ==> !HandsBack(events[k], events[i].c)
    ensures HandedBackOnce(events, i)
  {
  }

  lemma FirstLiveIsDisciplined(c: Connection)
    ensures Disciplined([CheckedOut(c), Probed(c, true), Ran(c), Returned(c)])
  {
    var all := [CheckedOut(c), Probed(c, true), Ran(c), Returned(c)];
    assert HandsBack(all[3], all[0].c);
  }

  lemma SecondLiveIsDisciplined(dead: Connection, c: Connection)
    requires dead != c
    ensures Disciplined([CheckedOut(dead), Probed(dead, false), Destroyed(dead),
                         CheckedOut(c), Probed(c, true), Ran(c), Returned(c)])
  {
    var all := [CheckedOut(dead), Probed(dead, false), Destroyed(dead), CheckedOut(c), Probed(c, true), Ran(c), Returned(c)];
    HandedBackAt(all, 0, 2);
    HandedBackAt(all, 3, 6);
  }

  lemma LiveIsDisciplined(events: seq<Event>, c: Connection)
    requires Acquires(events, c)
    ensures Disciplined(events + [Ran(c), Returned(c)])
  {
    if |events| == 2 {
      FirstLiveIsDisciplined(c);
      assert events + [Ran(c), Returned(c)] == [CheckedOut(c), Probed(c, true), Ran(c), Returned(c)];
    } else {
      var dead := events[0].c;
      SecondLiveIsDisciplined(dead, c);
      assert events + [Ran(c), Returned(c)] == [CheckedOut(dead), Probed(dead, false), Destroyed(dead),
                                                CheckedOut(c), Probed(c, true), Ran(c), Returned(c)];
    }
  }

  // ----- query: one retry instead of a probe -----

  /** How one execution of a statement ended. */
  datatype Attempt = Attempt(applied: bool, failure: Option<Failure>)

  /** The statement is sent a second time exactly after a retryable failure.  It takes effect
      twice exactly when the first attempt's effect was masked by such a failure and the
      second took effect too. */
  method Query(first: Attempt, second: Attempt) returns (attempts: nat, effects: nat, result: Option<Failure>)
    ensures attempts == if first.failure.Some? && first.failure.value.retryable then 2 else 1
    ensures effects <= attempts
    ensures effects == 2 <==> first.applied && first.failure.Some? && first.failure.value.retryable && second.applied
    ensures effects == 0 <==> !first.applied && (attempts == 2 ==> !second.applied)
    ensures result == if attempts == 2 then second.failure else first.failure
  {
    attempts, effects := 1, if first.applied then 1 else 0;
    if first.failure.None? {
      return attempts, effects, None;
    }
    if first.failure.value.retryable {
      return 2, effects + (if second.applied then 1 else 0), second.failure;
    }
    result := first.failure;
  }
}
