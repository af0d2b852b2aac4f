/** The cursor-paginated activity feed: `GroupActivityRepository.list`. */
module ActivityFeed {
  import opened Sequences

  /** `createdAt` counts microseconds, as the table keeps them. */
  datatype Event = Event(workspace: string, code: string, actor: Option<string>, systemId: Option<string>,
                         deliveryProjectId: Option<string>, repositoryId: Option<string>, createdAt: int)

  /** Empty strings count as absent. */
  datatype Query = Query(memberId: string, systemId: string, deliveryProjectId: string, repositoryId: string,
                         activityType: string, dateFrom: Option<int>, dateTo: Option<int>)

  /** The table in the order the query reads it. */
  ghost predicate NewestFirst(feed: seq<Event>) {
    forall i, j :: 0 <= i < j < |feed| ==> feed[i].createdAt >= feed[j].createdAt
  }

  /** SQL `LIKE 'prefix%'`, where an underscore matches any character. */
  predicate LikePrefix(code: string, prefix: string) {
    |code| >= |prefix| && forall i :: 0 <= i < |prefix| ==> prefix[i] == '_' || code[i] == prefix[i]
  }

  function CodePrefixes(activityType: string): seq<string> {
    if activityType == "assignment" then ["hierarchy.assignment."]
    else if activityType == "configuration" then ["hierarchy.configuration."]
    else if activityType == "membership" then ["hierarchy.group.member_", "hierarchy.group.invitation_"]
    else []
  }

  predicate Asks(filter: string, value: Option<string>) {
    filter == "" || value == Some(filter)
  }

  /** What the filters ask of an event of the group. */
  predicate Wanted(groupId: string, q: Query, e: Event) {
    && e.workspace == groupId && LikePrefix(e.code, "hierarchy.")
    && Asks(q.memberId, e.actor) && Asks(q.systemId, e.systemId)
    && Asks(q.deliveryProjectId, e.deliveryProjectId) && Asks(q.repositoryId, e.repositoryId)
    && (q.activityType == "" || exists p :: p in CodePrefixes(q.activityType) && LikePrefix(e.code, p))
    && (q.dateFrom.Some? ==> e.createdAt >= q.dateFrom.value)
    && (q.dateTo.Some? ==> e.createdAt <= q.dateTo.value)
  }

  predicate IsBefore(e: Event, cursor: Option<int>) {
    cursor.Some? ==> e.createdAt < cursor.value
  }

  // ----- The conditions the query is assembled from -----

  datatype Column = Actor | System | DeliveryProject | Repository

  datatype Condition = InWorkspace(id: string) | CodeLike(prefixes: seq<string>) | ColumnIs(column: Column, value: string)
                     | Never | CreatedFrom(t: int) | CreatedTo(t: int) | CreatedBefore(t: int)

  function ColumnOf(e: Event, c: Column): Option<string> {
    match c
    case Actor => e.actor
    case System => e.systemId
    case DeliveryProject => e.deliveryProjectId
    case Repository => e.repositoryId
  }

  predicate Satisfies(e: Event, c: Condition) {
    match c
    case InWorkspace(id) => e.workspace == id
    case CodeLike(prefixes) => exists p :: p in prefixes && LikePrefix(e.code, p)
    case ColumnIs(column, value) => ColumnOf(e, column) == Some(value)
    case Never => false
    case CreatedFrom(t) => e.createdAt >= t
    case CreatedTo(t) => e.createdAt <= t
    case CreatedBefore(t) => e.createdAt < t
  }

  predicate SatisfiesAll(e: Event, cs: seq<Condition>) {
    forall i :: 0 <= i < |cs| ==> Satisfies(e, cs[i])
  }

  lemma SatisfiesMore(e: Event, cs: seq<Condition>, c: Condition)
    ensures SatisfiesAll(e, cs + [c]) <==> SatisfiesAll(e, cs) && Satisfies(e, c)
  {
    if SatisfiesAll(e, cs + [c]) {
      assert (cs + [c])[|cs|] == c;
      forall i | 0 <= i < |cs| ensures Satisfies(e, cs[i]) {
        assert (cs + [c])[i] == cs[i];
      }
    }
  }

  method Push(cs: seq<Condition>, needed: bool, c: Condition) returns (cs': seq<Condition>)
    ensures forall e :: SatisfiesAll(e, cs') <==> SatisfiesAll(e, cs) && (needed ==> Satisfies(e, c))
  {
    cs' := if needed then cs + [c] else cs;
    forall e ensures SatisfiesAll(e, cs') <==> SatisfiesAll(e, cs) && (needed ==> Satisfies(e, c)) {
      SatisfiesMore(e, cs, c);
    }
  }

  method BaseConditions(groupId: string) returns (cs: seq<Condition>)
    ensures forall e :: SatisfiesAll(e, cs) <==> e.workspace == groupId && LikePrefix(e.code, "hierarchy.")
  {
    cs := Push([], true, InWorkspace(groupId));
    cs := Push(cs, true, CodeLike(["hierarchy."]));
    assert "hierarchy." in ["hierarchy."];
  }

  method ColumnConditions(cs: seq<Condition>, q: Query) returns (cs': seq<Condition>)
    ensures forall e :: SatisfiesAll(e, cs') <==>
              SatisfiesAll(e, cs) && Asks(q.memberId, e.actor) && Asks(q.systemId, e.systemId)
              && Asks(q.deliveryProjectId, e.deliveryProjectId) && Asks(q.repositoryId, e.repositoryId)
  {
    cs' := Push(cs, q.memberId != "", ColumnIs(Actor, q.memberId));
    cs' := Push(cs', q.systemId != "", ColumnIs(System, q.systemId));
    cs' := Push(cs', q.deliveryProjectId != "", ColumnIs(DeliveryProject, q.deliveryProjectId));
    cs' := Push(cs', q.repositoryId != "", ColumnIs(Repository, q.repositoryId));
  }

  method TypeConditions(cs: seq<Condition>, activityType: string) returns (cs': seq<Condition>)
    ensures forall e :: SatisfiesAll(e, cs') <==>
              SatisfiesAll(e, cs)
              && (activityType == "" || exists p :: p in CodePrefixes(activityType) && LikePrefix(e.code, p))
  {
    var prefixes := CodePrefixes(activityType);
    cs' := Push(cs, activityType != "", if prefixes == [] then Never else CodeLike(prefixes));
  }

  method DateConditions(cs: seq<Condition>, from: Option<int>, to: Option<int>, cursor: Option<int>) returns (cs': seq<Condition>)
    ensures forall e :: SatisfiesAll(e, cs') <==>
              SatisfiesAll(e, cs) && (from.Some? ==> e.createdAt >= from.value) && (to.Some? ==> e.createdAt <= to.value)
              && IsBefore(e, cursor)
  {
    cs' := Push(cs, from.Some?, CreatedFrom(from.GetOr(0)));
    cs' := Push(cs', to.Some?, CreatedTo(to.GetOr(0)));
    cs' := Push(cs', cursor.Some?, CreatedBefore(cursor.GetOr(0)));
  }

  // ----- One page -----

  function PageLimit(limit: Option<int>): (n: nat)
    ensures 1 <= n <= 200
  {
    var asked := if limit.Some? then limit.value else 50;
    var atLeastOne := if asked < 1 then 1 else asked;
    if atLeastOne > 200 then 200 else atLeastOne
  }

  function Select(feed: seq<Event>, groupId: string, q: Query, cursor: Option<int>): seq<Event> {
    if feed == [] then []
    else
      var rest := Select(feed[1..], groupId, q, cursor);
      if Wanted(groupId, q, feed[0]) && IsBefore(feed[0], cursor) then [feed[0]] + rest else rest
  }

  /** Instants leave the database as dates, which are exact to the millisecond only. */
  function CursorOf(t: int): int {
    t - t % 1000
  }

  datatype Page = Page(rows: seq<Event>, nextCursor: Option<int>)

  function PageOf(selected: seq<Event>, limit: nat): Page
    requires limit >= 1
  {
    if |selected| > limit then Page(selected[..limit], Some(CursorOf(selected[limit - 1].createdAt))) else Page(selected, None)
  }

  method Fetch(feed: seq<Event>, cs: seq<Condition>, ghost groupId: string, ghost q: Query, ghost cursor: Option<int>,
               count: nat) returns (rows: seq<Event>)
    requires forall e :: SatisfiesAll(e, cs) <==> Wanted(groupId, q, e) && IsBefore(e, cursor)
    ensures var all := Select(feed, groupId, q, cursor); rows == if |all| > count then all[..count] else all
  {
    rows := [];
    var i := |feed|;
    while i > 0
      invariant 0 <= i <= |feed|
      invariant rows == Select(feed[i..], groupId, q, cursor)
    {
      i := i - 1;
      assert feed[i..][1..] == feed[i + 1..];
      if SatisfiesAll(feed[i], cs) {
        rows := [feed[i]] + rows;
      }
    }
    if |rows| > count {
      rows := rows[..count];
    }
  }

  /** The extra row, if it came, only tells that there is a next page. */
  method TrimPage(fetched: seq<Event>, n: nat, ghost all: seq<Event>) returns (page: Page)
    requires n >= 1 && fetched == if |all| > n + 1 then all[..n + 1] else all
    ensures page == PageOf(all, n)
    ensures (page.nextCursor.Some? <==> |all| > n) && page.rows == all[..if |all| > n then n else |all|]
    ensures page.nextCursor.Some? ==> var t := all[n - 1].createdAt; page.nextCursor == Some(t - t % 1000)
  {
    var hasNextPage := |fetched| > n;
    var rows := if hasNextPage then fetched[..n] else fetched;
    var nextCursor := if hasNextPage then Some(CursorOf(rows[|rows| - 1].createdAt)) else None;
    page := Page(rows, nextCursor);
  }

  /** One page of the filtered feed: as many rows as asked for, and a cursor iff there are more. */
  method List(feed: seq<Event>, groupId: string, q: Query, cursor: Option<int>, limit: Option<int>) returns (page: Page)
    ensures page == PageOf(Select(feed, groupId, q, cursor), PageLimit(limit))
    ensures var all, n := Select(feed, groupId, q, cursor), PageLimit(limit);
            && (page.nextCursor.Some? <==> |all| > n) && page.rows == all[..if |all| > n then n else |all|]
            && (page.nextCursor.Some? ==> var t := all[n - 1].createdAt; page.nextCursor == Some(t - t % 1000))
  {
    var n := PageLimit(limit);
    var cs := BaseConditions(groupId);
    cs := ColumnConditions(cs, q);
    cs := TypeConditions(cs, q.activityType);
    cs := DateConditions(cs, q.dateFrom, q.dateTo, cursor);
    var fetched := Fetch(feed, cs, groupId, q, cursor, n + 1);
    page := TrimPage(fetched, n, Select(feed, groupId, q, cursor));
  }

  /** What each filter asks of an event. */
  lemma WantedIff(groupId: string, q: Query, e: Event)
    ensures Wanted(groupId, q, e) <==>
            && e.workspace == groupId && "hierarchy." <= e.code
            && (q.memberId == "" || e.actor == Some(q.memberId))
            && (q.systemId == "" || e.systemId == Some(q.systemId))
            && (q.deliveryProjectId == "" || e.deliveryProjectId == Some(q.deliveryProjectId))
            && (q.repositoryId == "" || e.repositoryId == Some(q.repositoryId))
            && (q.activityType == "" || OfType(e.code, q.activityType))
            && (q.dateFrom.None? || e.createdAt >= q.dateFrom.value) && (q.dateTo.None? || e.createdAt <= q.dateTo.value)
  {
    PlainPrefix(e.code, "hierarchy.");
    TypeIff(e.code, q.activityType);
  }

  /** The event codes of an activity type; in the membership codes the last underscore stands
      for any one character, as the database reads it. */
  predicate OfType(code: string, activityType: string) {
    || (activityType == "assignment" && "hierarchy.assignment." <= code)
    || (activityType == "configuration" && "hierarchy.configuration." <= code)
    || (activityType == "membership" && |code| >= 23 && "hierarchy.group.member" <= code)
    || (activityType == "membership" && |code| >= 27 && "hierarchy.group.invitation" <= code)
  }

  lemma PlainPrefix(code: string, prefix: string)
    requires '_' !in prefix
    ensures LikePrefix(code, prefix) <==> prefix <= code
  {
    if LikePrefix(code, prefix) {
      assert forall i :: 0 <= i < |prefix| ==> prefix[i] in prefix;
    }
  }

  lemma UnderscoreLast(code: string, prefix: string)
    requires '_' !in prefix
    ensures LikePrefix(code, prefix + "_") <==> |code| >= |prefix| + 1 && prefix <= code
  {
    var whole := prefix + "_";
    assert whole[|prefix|] == '_' && forall i :: 0 <= i < |prefix| ==> whole[i] == prefix[i] && prefix[i] in prefix;
  }

  lemma TypeIff(code: string, activityType: string)
    ensures OfType(code, activityType) <==> exists p :: p in CodePrefixes(activityType) && LikePrefix(code, p)
  {
    PlainPrefix(code, "hierarchy.assignment.");
    PlainPrefix(code, "hierarchy.configuration.");
    MemberCode(code);
    InvitationCode(code);
  }

  lemma MemberCode(code: string)
    ensures LikePrefix(code, "hierarchy.group.member_") <==> |code| >= 23 && "hierarchy.group.member" <= code
  {
    UnderscoreLast(code, "hierarchy.group.member");
    assert "hierarchy.group.member_" == "hierarchy.group.member" + "_";
  }

  lemma InvitationCode(code: string)
    ensures LikePrefix(code, "hierarchy.group.invitation_") <==> |code| >= 27 && "hierarchy.group.invitation" <= code
  {
    UnderscoreLast(code, "hierarchy.group.invitation");
    assert "hierarchy.group.invitation_" == "hierarchy.group.invitation" + "_";
  }

  /** Fifty rows a page unless asked for between one and two hundred. */
  lemma LimitIs(limit: Option<int>)
    ensures limit.None? ==> PageLimit(limit) == 50
    ensures limit.Some? && 1 <= limit.value <= 200 ==> PageLimit(limit) == limit.value
    ensures limit.Some? && limit.value < 1 ==> PageLimit(limit) == 1
    ensures limit.Some? && limit.value > 200 ==> PageLimit(limit) == 200
  {
  }

  // ----- Following the cursor -----

  lemma {:induction false} SelectIsSorted(feed: seq<Event>, groupId: string, q: Query, cursor: Option<int>)
    requires NewestFirst(feed)
    ensures NewestFirst(Select(feed, groupId, q, cursor))
    ensures forall e :: e in Select(feed, groupId, q, cursor) ==> e in feed
  {
    if feed != [] {
      assert forall i :: 0 <= i < |feed[1..]| ==> feed[1..][i] == feed[i + 1];
      SelectIsSorted(feed[1..], groupId, q, cursor);
      var rest := Select(feed[1..], groupId, q, cursor);
      forall i | 0 <= i < |rest| ensures feed[0].createdAt >= rest[i].createdAt {
        assert rest[i] in feed[1..];
        var j :| 0 <= j < |feed[1..]| && feed[1..][j] == rest[i];
        assert feed[j + 1] == rest[i];
      }
    }
  }

  lemma FirstIsNewest(feed: seq<Event>, groupId: string, q: Query, cursor: Option<int>)
    requires NewestFirst(feed) && feed != []
    ensures NewestFirst(feed[1..])
    ensures var rest := Select(feed[1..], groupId, q, cursor);
            forall i :: 0 <= i < |rest| ==> rest[i].createdAt <= feed[0].createdAt
  {
    assert forall i :: 0 <= i < |feed[1..]| ==> feed[1..][i] == feed[i + 1];
    SelectIsSorted(feed[1..], groupId, q, cursor);
    var rest := Select(feed[1..], groupId, q, cursor);
    forall i | 0 <= i < |rest| ensures rest[i].createdAt <= feed[0].createdAt {
      assert rest[i] in feed[1..];
      var j :| 0 <= j < |feed[1..]| && feed[1..][j] == rest[i];
      assert feed[j + 1] == rest[i];
    }
  }

  /** `k` is where the events older than `c` begin. */
  ghost predicate OlderFrom(all: seq<Event>, c: int, k: nat) {
    && k <= |all|
    && (forall i :: 0 <= i < k ==> all[i].createdAt >= c)
    && (forall i :: k <= i < |all| ==> all[i].createdAt < c)
  }

  /** Selecting before a cursor takes a suffix of the whole filtered feed. */
  lemma {:induction false} SelectBefore(feed: seq<Event>, groupId: string, q: Query, c: int) returns (k: nat)
    requires NewestFirst(feed)
    ensures var all := Select(feed, groupId, q, None);
            OlderFrom(all, c, k) && Select(feed, groupId, q, Some(c)) == all[k..]
  {
    k := 0;
    if feed != [] {
      FirstIsNewest(feed, groupId, q, None);
      k := SelectBefore(feed[1..], groupId, q, c);
      var rest := Select(feed[1..], groupId, q, None);
      if Wanted(groupId, q, feed[0]) {
        Shift(feed[0], rest, c, k);
        if feed[0].createdAt >= c {
          k := k + 1;
        }
      }
    }
  }

  lemma Shift(first: Event, rest: seq<Event>, c: int, k: nat)
    requires OlderFrom(rest, c, k) && forall i :: 0 <= i < |rest| ==> rest[i].createdAt <= first.createdAt
    ensures first.createdAt >= c ==> OlderFrom([first] + rest, c, k + 1) && ([first] + rest)[k + 1..] == rest[k..]
    ensures first.createdAt < c ==> k == 0 && OlderFrom([first] + rest, c, 0)
  {
    assert k > 0 ==> rest[0].createdAt >= c;
    assert first.createdAt >= c ==> ([first] + rest)[k + 1..] == rest[k..];
  }

  /** The next page starts at or after the first row this one left out, exactly there iff
      that row is older than the millisecond of the last row of this page. */
  lemma NextPage(feed: seq<Event>, groupId: string, q: Query, cursor: Option<int>, limit: nat) returns (k: nat)
    requires NewestFirst(feed) && limit >= 1
    requires PageOf(Select(feed, groupId, q, cursor), limit).nextCursor.Some?
    ensures var selected := Select(feed, groupId, q, cursor);
            var next := PageOf(selected, limit).nextCursor;
            && limit <= k <= |selected| && Select(feed, groupId, q, next) == selected[k..]
            && (k == limit <==> selected[limit].createdAt < CursorOf(selected[limit - 1].createdAt))
  {
    var selected := Select(feed, groupId, q, cursor);
    var all := Select(feed, groupId, q, None);
    var c := CursorOf(selected[limit - 1].createdAt);
    var start := 0;
    if cursor.Some? {
      start := SelectBefore(feed, groupId, q, cursor.value);
    }
    assert selected == all[start..];
    SelectIsSorted(feed, groupId, q, None);
    var stop := SelectBefore(feed, groupId, q, c);
    CutAfter(all, start, limit, c, stop);
    k := stop - start;
  }

  /** Where a cut at `c` falls in the rows from `start` on. */
  lemma CutAfter(all: seq<Event>, start: nat, limit: nat, c: int, stop: nat)
    requires NewestFirst(all) && limit >= 1 && start + limit < |all| && OlderFrom(all, c, stop)
    requires c <= all[start + limit - 1].createdAt
    ensures start + limit <= stop && all[stop..] == all[start..][stop - start..]
    ensures stop == start + limit <==> all[start..][limit].createdAt < c
  {
  }

  // ----- The same table read again -----

  /** The n-th request reads the same events newest first, in any order among equals. */
  ghost predicate Readings(feeds: nat -> seq<Event>) {
    forall n :: NewestFirst(feeds(n)) && multiset(feeds(n)) == multiset(feeds(0))
  }

  lemma {:induction false} SelectCounts(feed: seq<Event>, groupId: string, q: Query, cursor: Option<int>, e: Event)
    ensures multiset(Select(feed, groupId, q, cursor))[e] ==
            if Wanted(groupId, q, e) && IsBefore(e, cursor) then multiset(feed)[e] else 0
  {
    if feed != [] {
      SelectCounts(feed[1..], groupId, q, cursor, e);
      assert feed == [feed[0]] + feed[1..];
    }
  }

  lemma SameSelection(feed: seq<Event>, feed': seq<Event>, groupId: string, q: Query, cursor: Option<int>)
    requires multiset(feed) == multiset(feed')
    ensures multiset(Select(feed, groupId, q, cursor)) == multiset(Select(feed', groupId, q, cursor))
    ensures |Select(feed, groupId, q, cursor)| == |Select(feed', groupId, q, cursor)|
  {
    var s, s' := Select(feed, groupId, q, cursor), Select(feed', groupId, q, cursor);
    forall e ensures multiset(s)[e] == multiset(s')[e] {
      SelectCounts(feed, groupId, q, cursor, e);
      SelectCounts(feed', groupId, q, cursor, e);
    }
    assert multiset(s) == multiset(s');
    assert |multiset(s)| == |s| && |multiset(s')| == |s'|;
  }

  /** Following a page leaves the events of its rest, and fewer than before. */
  lemma FollowUp(feeds: nat -> seq<Event>, groupId: string, q: Query, cursor: Option<int>, limit: nat, n: nat) returns (k: nat)
    requires Readings(feeds) && limit >= 1 && PageOf(Select(feeds(n), groupId, q, cursor), limit).nextCursor.Some?
    ensures var selected := Select(feeds(n), groupId, q, cursor);
            var next := Select(feeds(n + 1), groupId, q, PageOf(selected, limit).nextCursor);
            && limit <= k <= |selected| && |next| == |selected| - k && multiset(next) == multiset(selected[k..])
            && (k == limit <==> selected[limit].createdAt < CursorOf(selected[limit - 1].createdAt))
  {
    k := NextPage(feeds(n), groupId, q, cursor, limit);
    var next := PageOf(Select(feeds(n), groupId, q, cursor), limit).nextCursor;
    assert multiset(feeds(n)) == multiset(feeds(0)) == multiset(feeds(n + 1));
    SameSelection(feeds(n), feeds(n + 1), groupId, q, next);
  }

  // ----- Following the cursor -----

  /** The concatenated pages from a cursor on, the n-th asked for with `limits(n)`. */
  ghost function Follow(feeds: nat -> seq<Event>, groupId: string, q: Query, cursor: Option<int>,
                        limits: nat -> Option<int>, n: nat): (all: seq<Event>)
    requires Readings(feeds)
    ensures |all| <= |Select(feeds(n), groupId, q, cursor)|
    decreases |Select(feeds(n), groupId, q, cursor)|
  {
    var limit := PageLimit(limits(n));
    var page := PageOf(Select(feeds(n), groupId, q, cursor), limit);
    if page.nextCursor.None? then page.rows
    else
      assert |Select(feeds(n + 1), groupId, q, page.nextCursor)| + limit <= |Select(feeds(n), groupId, q, cursor)| by {
        var _ := FollowUp(feeds, groupId, q, cursor, limit, n);
      }
      page.rows + Follow(feeds, groupId, q, page.nextCursor, limits, n + 1)
  }

  /** No page ends between two events of the same millisecond. */
  ghost predicate CutsCleanly(feeds: nat -> seq<Event>, groupId: string, q: Query, cursor: Option<int>,
                              limits: nat -> Option<int>, n: nat)
    requires Readings(feeds)
    decreases |Select(feeds(n), groupId, q, cursor)|
  {
    var limit := PageLimit(limits(n));
    var selected := Select(feeds(n), groupId, q, cursor);
    var page := PageOf(selected, limit);
    page.nextCursor.Some? ==>
      assert |Select(feeds(n + 1), groupId, q, page.nextCursor)| + limit <= |selected| by {
        var _ := FollowUp(feeds, groupId, q, cursor, limit, n);
      }
      selected[limit].createdAt < CursorOf(selected[limit - 1].createdAt)
      && CutsCleanly(feeds, groupId, q, page.nextCursor, limits, n + 1)
  }

  lemma PageAndRest(selected: seq<Event>, limit: nat, rest: seq<Event>)
    requires limit <= |selected|
    ensures multiset(selected[..limit] + rest) == multiset(selected) <==> multiset(rest) == multiset(selected[limit..])
  {
    assert selected == selected[..limit] + selected[limit..];
    var a, b, c := multiset(selected[..limit]), multiset(rest), multiset(selected[limit..]);
    assert b == (a + b) - a && c == (a + c) - a;
  }

  /** Whatever the limits and however equal instants are ordered each time, following the
      cursor gives every event of the filtered feed as often as it is there exactly when no
      page ends between two events of the same millisecond. */
  lemma {:induction false} FollowingGivesAll(feeds: nat -> seq<Event>, groupId: string, q: Query, cursor: Option<int>,
                                             limits: nat -> Option<int>, n: nat)
    requires Readings(feeds)
    ensures multiset(Follow(feeds, groupId, q, cursor, limits, n)) == multiset(Select(feeds(n), groupId, q, cursor))
       <==> CutsCleanly(feeds, groupId, q, cursor, limits, n)
    decreases |Select(feeds(n), groupId, q, cursor)|
  {
    var limit := PageLimit(limits(n));
    var selected := Select(feeds(n), groupId, q, cursor);
    var next := PageOf(selected, limit).nextCursor;
    if next.Some? {
      var k := FollowUp(feeds, groupId, q, cursor, limit, n);
      FollowingGivesAll(feeds, groupId, q, next, limits, n + 1);
      var rest := Follow(feeds, groupId, q, next, limits, n + 1);
      if k == limit {
        PageAndRest(selected, limit, rest);
      } else {
        assert |multiset(selected[..limit] + rest)| < |selected| == |multiset(selected)|;
      }
    }
  }

  lemma {:induction false} FollowedAreSelected(feeds: nat -> seq<Event>, groupId: string, q: Query, cursor: Option<int>,
                                               limits: nat -> Option<int>, n: nat, e: Event)
    requires Readings(feeds) && e in Follow(feeds, groupId, q, cursor, limits, n)
    ensures e in Select(feeds(n), groupId, q, cursor)
    decreases |Select(feeds(n), groupId, q, cursor)|
  {
    var limit := PageLimit(limits(n));
    var selected := Select(feeds(n), groupId, q, cursor);
    var next := PageOf(selected, limit).nextCursor;
    if next.Some? && e !in selected[..limit] {
      var k := FollowUp(feeds, groupId, q, cursor, limit, n);
      FollowedAreSelected(feeds, groupId, q, next, limits, n + 1, e);
      assert e in multiset(Select(feeds(n + 1), groupId, q, next));
      assert e in selected[k..];
    }
  }

  lemma {:induction false} SelectedAreBefore(feed: seq<Event>, groupId: string, q: Query, cursor: Option<int>)
    ensures forall e :: e in Select(feed, groupId, q, cursor) ==> IsBefore(e, cursor)
  {
    if feed != [] {
      SelectedAreBefore(feed[1..], groupId, q, cursor);
    }
  }

  /** The concatenated pages are newest first, whatever they miss. */
  lemma {:induction false} FollowedIsSorted(feeds: nat -> seq<Event>, groupId: string, q: Query, cursor: Option<int>,
                                            limits: nat -> Option<int>, n: nat)
    requires Readings(feeds)
    ensures NewestFirst(Follow(feeds, groupId, q, cursor, limits, n))
    decreases |Select(feeds(n), groupId, q, cursor)|
  {
    var limit := PageLimit(limits(n));
    var selected := Select(feeds(n), groupId, q, cursor);
    var next := PageOf(selected, limit).nextCursor;
    SelectIsSorted(feeds(n), groupId, q, cursor);
    if next.Some? {
      var _ := FollowUp(feeds, groupId, q, cursor, limit, n);
      FollowedIsSorted(feeds, groupId, q, next, limits, n + 1);
      var rest := Follow(feeds, groupId, q, next, limits, n + 1);
      SelectedAreBefore(feeds(n + 1), groupId, q, next);
      forall e | e in rest ensures e.createdAt < next.value {
        FollowedAreSelected(feeds, groupId, q, next, limits, n + 1, e);
      }
      NewerThenOlder(selected[..limit], rest, next.value);
    }
  }

  lemma NewerThenOlder(a: seq<Event>, b: seq<Event>, c: int)
    requires NewestFirst(a) && NewestFirst(b)
    requires (forall i :: 0 <= i < |a| ==> a[i].createdAt >= c) && forall e :: e in b ==> e.createdAt < c
    ensures NewestFirst(a + b)
  {
    var s := a + b;
    forall i, j | 0 <= i < j < |s| ensures s[i].createdAt >= s[j].createdAt {
      assert j >= |a| ==> s[j] == b[j - |a|] && s[j] in b;
    }
  }

  ghost predicate DistinctMilliseconds(feed: seq<Event>) {
    forall i, j :: 0 <= i < j < |feed| ==> CursorOf(feed[i].createdAt) > CursorOf(feed[j].createdAt)
  }

  lemma {:induction false} SelectIsDistinct(feed: seq<Event>, groupId: string, q: Query, cursor: Option<int>)
    requires DistinctMilliseconds(feed) && NewestFirst(feed)
    ensures DistinctMilliseconds(Select(feed, groupId, q, cursor))
  {
    if feed != [] {
      var tail := feed[1..];
      assert forall i :: 0 <= i < |tail| ==> tail[i] == feed[i + 1];
      SelectIsDistinct(tail, groupId, q, cursor);
      SelectIsSorted(tail, groupId, q, cursor);
      var rest := Select(tail, groupId, q, cursor);
      forall i | 0 <= i < |rest| ensures CursorOf(feed[0].createdAt) > CursorOf(rest[i].createdAt) {
        assert rest[i] in tail;
        var j :| 0 <= j < |tail| && tail[j] == rest[i];
        assert feed[j + 1] == rest[i];
      }
    }
  }

  lemma EarlierMillisecond(t: int, u: int)
    ensures CursorOf(t) > CursorOf(u) ==> u < CursorOf(t)
  {
  }

  lemma {:induction false} DistinctCutsCleanly(feeds: nat -> seq<Event>, groupId: string, q: Query, cursor: Option<int>,
                                               limits: nat -> Option<int>, n: nat)
    requires Readings(feeds) && forall m :: DistinctMilliseconds(feeds(m))
    ensures CutsCleanly(feeds, groupId, q, cursor, limits, n)
    decreases |Select(feeds(n), groupId, q, cursor)|
  {
    var limit := PageLimit(limits(n));
    var page := PageOf(Select(feeds(n), groupId, q, cursor), limit);
    SelectIsDistinct(feeds(n), groupId, q, cursor);
    if page.nextCursor.Some? {
      var selected := Select(feeds(n), groupId, q, cursor);
      EarlierMillisecond(selected[limit - 1].createdAt, selected[limit].createdAt);
      var _ := FollowUp(feeds, groupId, q, cursor, limit, n);
      DistinctCutsCleanly(feeds, groupId, q, page.nextCursor, limits, n + 1);
    }
  }

  /** With at most one event a millisecond the pages, from the first on, are the whole
      filtered feed, newest first. */
  lemma DistinctMillisecondsLoseNothing(feeds: nat -> seq<Event>, groupId: string, q: Query, limits: nat -> Option<int>)
    requires Readings(feeds) && forall m :: DistinctMilliseconds(feeds(m))
    ensures multiset(Follow(feeds, groupId, q, None, limits, 0)) == multiset(Select(feeds(0), groupId, q, None))
    ensures NewestFirst(Follow(feeds, groupId, q, None, limits, 0))
  {
    DistinctCutsCleanly(feeds, groupId, q, None, limits, 0);
    FollowingGivesAll(feeds, groupId, q, None, limits, 0);
    FollowedIsSorted(feeds, groupId, q, None, limits, 0);
  }

  // ----- An event that no page shows -----

  function Assigned(t: int): Event {
    Event("g", "hierarchy.assignment.created", None, None, None, None, t)
  }

  const Everything := Query("", "", "", "", "", None, None)

  function TwoEvents(t: int, u: int): nat -> seq<Event> {
    (_: nat) => [Assigned(t), Assigned(u)]
  }

  const OneByOne: nat -> Option<int> := _ => Some(1)

  lemma OneSelected(u: int, cursor: Option<int>)
    ensures Select([Assigned(u)], "g", Everything, cursor) == if IsBefore(Assigned(u), cursor) then [Assigned(u)] else []
  {
    assert [Assigned(u)][1..] == [] && Wanted("g", Everything, Assigned(u));
  }

  lemma BothSelected(t: int, u: int, cursor: Option<int>)
    ensures Select([Assigned(t), Assigned(u)], "g", Everything, cursor) ==
            (if IsBefore(Assigned(t), cursor) then [Assigned(t)] else [])
            + (if IsBefore(Assigned(u), cursor) then [Assigned(u)] else [])
  {
    var feed := [Assigned(t), Assigned(u)];
    OneSelected(u, cursor);
    assert feed[1..] == [Assigned(u)] && Wanted("g", Everything, feed[0]);
  }

  lemma TwoEventsRead(t: int, u: int)
    requires u <= t
    ensures Readings(TwoEvents(t, u))
  {
  }

  /** Read one at a time, the second event of a millisecond, whether of the same instant or
      microseconds earlier, is on no page. */
  lemma SameMillisecondIsLost(t: int, u: int)
    requires CursorOf(t) <= u <= t
    ensures Readings(TwoEvents(t, u))
    ensures Select(TwoEvents(t, u)(0), "g", Everything, None) == [Assigned(t), Assigned(u)]
    ensures Follow(TwoEvents(t, u), "g", Everything, None, OneByOne, 0) == [Assigned(t)]
  {
    var feeds, next := TwoEvents(t, u), Some(CursorOf(t));
    TwoEventsRead(t, u);
    BothSelected(t, u, None);
    BothSelected(t, u, next);
    var selected := Select(feeds(0), "g", Everything, None);
    assert PageLimit(OneByOne(0)) == 1 && PageOf(selected, 1) == Page([Assigned(t)], next);
    assert Select(feeds(1), "g", Everything, next) == [];
    assert Follow(feeds, "g", Everything, next, OneByOne, 1) == [];
  }
}
