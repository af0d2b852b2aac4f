/** CI stage reports: the keyed table they are upserted into, its ordered limited read, and
    `groupIntoRuns`, which folds the rows into one run per commit. */
module CiRuns {
  import opened Sequences
  import opened RunOrder

  datatype Stage = Access | Quality | Package

  datatype Status = Success | Failure | Running | Cancelled | Pending

  /** `detail` stands for the results, the messages and the raw logs. */
  datatype Row = Row(user: string, repo: string, branch: string, sha: string, runId: nat, stage: Stage,
                     status: Status, detail: string, createdAt: int, updatedAt: int)

  // ----- The table -----

  type RowKey = (string, nat, Stage)

  type Table = map<RowKey, Row>

  function KeyOfRow(r: Row): RowKey {
    (r.repo, r.runId, r.stage)
  }

  ghost predicate ValidTable(t: Table) {
    forall k :: k in t ==> KeyOfRow(t[k]) == k
  }

  class CiRunReports {
    var table: Table

    constructor ()
      ensures table == map[] && ValidTable(table)
    {
      table := map[];
    }

    /** A second report of the same repository, run and stage refreshes the outcome in place
        and keeps the owner, the commit and the creation time of the first. */
    method Upsert(data: Row, now: int)
      requires ValidTable(table)
      modifies this
      ensures ValidTable(table) && table.Keys == old(table).Keys + {KeyOfRow(data)}
      ensures forall k :: k in old(table) && k != KeyOfRow(data) ==> table[k] == old(table)[k]
      ensures var r := table[KeyOfRow(data)];
              && r.status == data.status && r.detail == data.detail && r.updatedAt == now
              && (r.user, r.branch, r.sha, r.createdAt) ==
                 (if KeyOfRow(data) in old(table)
                  then var o := old(table)[KeyOfRow(data)]; (o.user, o.branch, o.sha, o.createdAt)
                  else (data.user, data.branch, data.sha, now))
    {
      var k := KeyOfRow(data);
      if k in table {
        table := table[k := table[k].(status := data.status, detail := data.detail, updatedAt := now)];
      } else {
        table := table[k := data.(createdAt := now, updatedAt := now)];
      }
    }
  }

  /** Most recent run first, and at most one row per repository, run and stage. */
  ghost predicate RecentFirst(rows: seq<Row>) {
    && (forall i, j :: 0 <= i < j < |rows| ==> rows[i].runId >= rows[j].runId)
    && (forall i, j :: 0 <= i < j < |rows| ==> KeyOfRow(rows[i]) != KeyOfRow(rows[j]))
  }

  // ----- The ordered read -----

  /** Both queries order by a column they select as text, so run ids compare as text. */
  ghost predicate TextOrdered(rows: seq<Row>) {
    && (forall i, j :: 0 <= i < j < |rows| ==> TextAtMost(rows[j].runId, rows[i].runId))
    && (forall i, j :: 0 <= i < j < |rows| ==> KeyOfRow(rows[i]) != KeyOfRow(rows[j]))
  }

  /** What `findRecentByRepo` and `findRecentByUser` read before limit and offset. */
  ghost predicate Lists(t: Table, wanted: Row -> bool, rows: seq<Row>) {
    && NoRepeats(rows)
    && (forall r :: r in rows <==> wanted(r) && KeyOfRow(r) in t && t[KeyOfRow(r)] == r)
    && forall i, j :: 0 <= i < j < |rows| ==> TextAtMost(rows[j].runId, rows[i].runId)
  }

  lemma PageIsTextOrdered(t: Table, wanted: Row -> bool, rows: seq<Row>, offset: nat, limit: nat)
    requires ValidTable(t) && Lists(t, wanted, rows) && offset + limit <= |rows|
    ensures TextOrdered(rows[offset..offset + limit])
  {
  }

  ghost predicate Agreeable(rows: seq<Row>) {
    forall r, s :: r in rows && s in rows && r.runId < s.runId ==> RanksFirst(r.runId, s.runId)
  }

  /** A page comes most recent run first exactly when text order ranks its run ids as
      numbers do. */
  lemma RecentFirstIff(rows: seq<Row>)
    requires TextOrdered(rows)
    ensures RecentFirst(rows) <==> Agreeable(rows)
  {
    if Agreeable(rows) {
      forall i, j | 0 <= i < j < |rows| ensures rows[i].runId >= rows[j].runId {
        var a, b := rows[i].runId, rows[j].runId;
        if a < b {
          assert rows[i] in rows && rows[j] in rows;
          TextOrderAgrees(a, b);
          TextBothWays(a, b);
        }
      }
    }
    if RecentFirst(rows) {
      forall r, s | r in rows && s in rows && r.runId < s.runId ensures RanksFirst(r.runId, s.runId) {
        var i :| 0 <= i < |rows| && rows[i] == r;
        var j :| 0 <= j < |rows| && rows[j] == s;
        TextOrderAgrees(r.runId, s.runId);
      }
    }
  }

  /** In particular when all run ids have equally many digits. */
  lemma SameDigitsRecentFirst(rows: seq<Row>)
    requires TextOrdered(rows)
    requires forall r, s :: r in rows && s in rows ==> |Decimal(r.runId)| == |Decimal(s.runId)|
    ensures RecentFirst(rows)
  {
    RecentFirstIff(rows);
  }

  // ----- Grouping -----

  function GroupKey(r: Row): string {
    r.repo + "::" + r.sha
  }

  /** Repository names have no colon, so the key identifies repository and commit, whatever
      text the commit is. */
  lemma GroupKeyIdentifiesCommit(a: Row, b: Row)
    requires ':' !in a.repo && ':' !in b.repo && GroupKey(a) == GroupKey(b)
    ensures a.repo == b.repo && a.sha == b.sha
  {
    var k, k' := GroupKey(a), GroupKey(b);
    assert k[|a.repo|] == ':' && k'[|b.repo|] == ':';
    assert forall i :: 0 <= i < |a.repo| ==> k[i] == a.repo[i];
    assert forall i :: 0 <= i < |b.repo| ==> k'[i] == b.repo[i];
    assert |a.repo| == |b.repo|;
    assert a.repo == k[..|a.repo|] && b.repo == k'[..|b.repo|];
    assert a.sha == k[|a.repo| + 2..] && b.sha == k'[|b.repo| + 2..];
  }

  /** A group under construction: the header from its first row, and the row taken for
      each stage. */
  datatype Group = Group(repo: string, branch: string, sha: string, startedAt: int, stages: map<Stage, Row>)

  function Opened(r: Row): Group {
    Group(r.repo, r.branch, r.sha, r.createdAt, map[])
  }

  function Added(g: Group, r: Row): Group {
    if r.stage in g.stages then g
    else g.(startedAt := if r.createdAt < g.startedAt then r.createdAt else g.startedAt, stages := g.stages[r.stage := r])
  }

  function GroupOf(rows: seq<Row>, key: string): Option<Group> {
    if rows == [] then None
    else
      var before, r := GroupOf(rows[..|rows| - 1], key), rows[|rows| - 1];
      if GroupKey(r) != key then before
      else Some(Added(if before.Some? then before.value else Opened(r), r))
  }

  function GroupKeys(rows: seq<Row>): (ks: seq<string>)
    ensures |ks| == |rows| && forall i :: 0 <= i < |rows| ==> ks[i] == GroupKey(rows[i])
  {
    Map(GroupKey, rows)
  }

  datatype StageReport = StageReport(stage: Stage, status: Status, detail: string, runId: nat, updatedAt: Option<int>)

  datatype RunGroup = RunGroup(runId: nat, repo: string, branch: string, sha: string, startedAt: int,
                               overall: OverallStatus, stages: seq<StageReport>)

  datatype OverallStatus = AllSuccess | SomeFailure | StillRunning | SomeCancelled | Partial

  function PrimaryRunId(g: Group): nat {
    if Package in g.stages then g.stages[Package].runId
    else if Quality in g.stages then g.stages[Quality].runId
    else if Access in g.stages then g.stages[Access].runId
    else 0
  }

  function ReportFor(g: Group, stage: Stage): StageReport {
    if stage in g.stages then
      var r := g.stages[stage];
      StageReport(stage, r.status, r.detail, r.runId, Some(r.updatedAt))
    else StageReport(stage, Pending, "", PrimaryRunId(g), None)
  }

  function Reports(g: Group): seq<StageReport> {
    [ReportFor(g, Access), ReportFor(g, Quality), ReportFor(g, Package)]
  }

  predicate AnyIs(reports: seq<StageReport>, status: Status) {
    exists i :: 0 <= i < |reports| && reports[i].status == status
  }

  function ComputeOverallStatus(reports: seq<StageReport>): OverallStatus {
    if AnyIs(reports, Pending) then Partial
    else if forall i :: 0 <= i < |reports| ==> reports[i].status == Success then AllSuccess
    else if AnyIs(reports, Failure) then SomeFailure
    else if AnyIs(reports, Running) then StillRunning
    else if AnyIs(reports, Cancelled) then SomeCancelled
    else Partial
  }

  function Shown(g: Group): RunGroup {
    RunGroup(PrimaryRunId(g), g.repo, g.branch, g.sha, g.startedAt, ComputeOverallStatus(Reports(g)), Reports(g))
  }

  /** What the reader is shown: the groups in the order their keys are first seen. */
  ghost function RunsOf(rows: seq<Row>): (runs: seq<RunGroup>)
    ensures |runs| == |Distinct(GroupKeys(rows))|
    ensures forall i :: 0 <= i < |runs| ==>
              GroupOf(rows, Distinct(GroupKeys(rows))[i]).Some?
              && runs[i] == Shown(GroupOf(rows, Distinct(GroupKeys(rows))[i]).value)
  {
    var keys := Distinct(GroupKeys(rows));
    forall i | 0 <= i < |keys| ensures GroupOf(rows, keys[i]).Some? {
      assert keys[i] in GroupKeys(rows);
      GroupExists(rows, keys[i]);
    }
    seq(|keys|, i requires 0 <= i < |keys| => Shown(GroupOf(rows, keys[i]).value))
  }

  lemma {:induction false} GroupExists(rows: seq<Row>, key: string)
    ensures GroupOf(rows, key).Some? <==> key in GroupKeys(rows)
  {
    if rows != [] {
      var init, r := rows[..|rows| - 1], rows[|rows| - 1];
      GroupExists(init, key);
      assert GroupKeys(rows) == GroupKeys(init) + [GroupKey(r)];
    }
  }

  /** The loop state agrees with the groups of the rows seen so far. */
  ghost predicate Grouped(order: seq<string>, groups: map<string, Group>, rows: seq<Row>) {
    && order == Distinct(GroupKeys(rows))
    && forall k :: GroupOf(rows, k) == if k in groups then Some(groups[k]) else None
  }

  lemma GroupOfSnoc(rows: seq<Row>, row: Row, key: string)
    ensures GroupOf(rows + [row], key) ==
            if GroupKey(row) != key then GroupOf(rows, key)
            else Some(Added(if GroupOf(rows, key).Some? then GroupOf(rows, key).value else Opened(row), row))
  {
  }

  lemma GroupKeysSnoc(rows: seq<Row>, row: Row)
    ensures var ks, key := GroupKeys(rows), GroupKey(row);
            && Distinct(GroupKeys(rows + [row])) == (if key in ks then Distinct(ks) else Distinct(ks) + [key])
  {
    assert GroupKeys(rows + [row]) == GroupKeys(rows) + [GroupKey(row)];
    DistinctSnoc(GroupKeys(rows), GroupKey(row));
  }

  /** What one row does to the loop state. */
  lemma GroupedSnoc(order: seq<string>, groups: map<string, Group>, rows: seq<Row>, row: Row)
    requires Grouped(order, groups, rows)
    ensures var key := GroupKey(row);
            var group := if key in groups then groups[key] else Opened(row);
            Grouped(if key in groups then order else order + [key], groups[key := Added(group, row)], rows + [row])
  {
    var key := GroupKey(row);
    var group := if key in groups then groups[key] else Opened(row);
    var groups' := groups[key := Added(group, row)];
    GroupExists(rows, key);
    GroupKeysSnoc(rows, row);
    forall k ensures GroupOf(rows + [row], k) == if k in groups' then Some(groups'[k]) else None {
      GroupOfSnoc(rows, row, k);
      assert GroupOf(rows, k) == if k in groups then Some(groups[k]) else None;
    }
  }

  method GroupRow(order: seq<string>, groups: map<string, Group>, row: Row, ghost rows: seq<Row>)
    returns (order': seq<string>, groups': map<string, Group>)
    requires Grouped(order, groups, rows)
    ensures Grouped(order', groups', rows + [row])
  {
    GroupedSnoc(order, groups, rows, row);
    var key := GroupKey(row);
    order' := if key !in groups then order + [key] else order;
    var group := if key !in groups then Opened(row) else groups[key];
    if row.stage !in group.stages {
      var startedAt := if row.createdAt < group.startedAt then row.createdAt else group.startedAt;
      group := group.(startedAt := startedAt, stages := group.stages[row.stage := row]);
    }
    groups' := groups[key := group];
  }

  method ShowGroups(order: seq<string>, groups: map<string, Group>, ghost rows: seq<Row>) returns (runs: seq<RunGroup>)
    requires Grouped(order, groups, rows)
    ensures runs == RunsOf(rows)
  {
    forall i | 0 <= i < |order| ensures order[i] in groups {
      assert order[i] in GroupKeys(rows);
      GroupExists(rows, order[i]);
    }
    runs := seq(|order|, i requires 0 <= i < |order| && order[i] in groups => Shown(groups[order[i]]));
  }

  method GroupIntoRuns(rows: seq<Row>) returns (runs: seq<RunGroup>)
    ensures runs == RunsOf(rows)
  {
    var order: seq<string> := [];
    var groups: map<string, Group> := map[];
    for i := 0 to |rows|
      invariant Grouped(order, groups, rows[..i])
    {
      assert rows[..i + 1] == rows[..i] + [rows[i]];
      order, groups := GroupRow(order, groups, rows[i], rows[..i]);
    }
    assert rows[..|rows|] == rows;
    runs := ShowGroups(order, groups, rows);
  }

  // ----- What a group is -----

  predicate InGroup(r: Row, key: string, s: Stage) {
    GroupKey(r) == key && r.stage == s
  }

  /** The header is that of the group's first row. */
  ghost predicate HasHeader(g: Group, rows: seq<Row>, key: string, i: nat) {
    && i < |rows| && GroupKey(rows[i]) == key && (forall j :: 0 <= j < i ==> GroupKey(rows[j]) != key)
    && g.repo == rows[i].repo && g.branch == rows[i].branch && g.sha == rows[i].sha
  }

  /** A stage is present iff it was read, from the row whose run id is greatest as text. */
  ghost predicate HasStage(g: Group, rows: seq<Row>, key: string, s: Stage) {
    && (s in g.stages <==> exists r :: r in rows && InGroup(r, key, s))
    && (s in g.stages ==>
          && g.stages[s] in rows && InGroup(g.stages[s], key, s)
          && forall r :: r in rows && InGroup(r, key, s) ==> TextAtMost(r.runId, g.stages[s].runId))
  }

  ghost predicate HasStages(g: Group, rows: seq<Row>, key: string) {
    forall s :: HasStage(g, rows, key, s)
  }

  /** The start is the earliest creation time among the rows taken. */
  ghost predicate HasStart(g: Group) {
    && (forall s :: s in g.stages ==> g.startedAt <= g.stages[s].createdAt)
    && (exists s :: s in g.stages && g.startedAt == g.stages[s].createdAt)
  }

  /** One commit's group, stated outright. */
  ghost predicate IsGroupOf(g: Group, rows: seq<Row>, key: string) {
    (exists i :: HasHeader(g, rows, key, i)) && HasStages(g, rows, key) && HasStart(g)
  }

  lemma GroupStarts(rows: seq<Row>, r: Row)
    requires GroupKey(r) !in GroupKeys(rows)
    ensures IsGroupOf(Added(Opened(r), r), rows + [r], GroupKey(r))
  {
    var all, g := rows + [r], Added(Opened(r), r);
    forall j | 0 <= j < |rows| ensures GroupKey(all[j]) != GroupKey(r) {
      assert GroupKeys(rows)[j] == GroupKey(rows[j]);
    }
    assert HasHeader(g, all, GroupKey(r), |rows|);
    AtMostItself(Decimal(r.runId));
    assert g.stages == map[r.stage := r] && all[|rows|] == r;
    forall x, s | x in all && InGroup(x, GroupKey(r), s) ensures x == r {
      var j :| 0 <= j < |all| && all[j] == x;
    }
    assert r in all && InGroup(r, GroupKey(r), r.stage) && r.stage in g.stages;
  }

  lemma HeaderStays(g: Group, g': Group, rows: seq<Row>, key: string, r: Row)
    requires (exists i :: HasHeader(g, rows, key, i)) && g'.repo == g.repo && g'.branch == g.branch && g'.sha == g.sha
    ensures exists i :: HasHeader(g', rows + [r], key, i)
  {
    var i :| HasHeader(g, rows, key, i);
    assert HasHeader(g', rows + [r], key, i);
  }

  lemma StageGrows(g: Group, rows: seq<Row>, key: string, r: Row, s: Stage)
    requires HasStage(g, rows, key, s) && forall x :: x in rows ==> TextAtMost(r.runId, x.runId)
    ensures HasStage(if GroupKey(r) == key then Added(g, r) else g, rows + [r], key, s)
  {
    AtMostItself(Decimal(r.runId));
    assert r in rows + [r];
    assert forall x :: x in rows + [r] <==> x in rows || x == r;
  }

  lemma StagesGrow(g: Group, rows: seq<Row>, key: string, r: Row)
    requires HasStages(g, rows, key) && forall x :: x in rows ==> TextAtMost(r.runId, x.runId)
    ensures HasStages(if GroupKey(r) == key then Added(g, r) else g, rows + [r], key)
  {
    var g' := if GroupKey(r) == key then Added(g, r) else g;
    forall s ensures HasStage(g', rows + [r], key, s) {
      assert HasStage(g, rows, key, s);
      StageGrows(g, rows, key, r, s);
    }
  }

  lemma StartMoves(g: Group, r: Row)
    requires HasStart(g)
    ensures HasStart(Added(g, r))
  {
    var g' := Added(g, r);
    var s :| s in g.stages && g.startedAt == g.stages[s].createdAt;
    assert s in g'.stages && (r.stage in g.stages || r.stage in g'.stages);
    assert g'.startedAt == g'.stages[s].createdAt || g'.startedAt == g'.stages[r.stage].createdAt;
  }

  /** On every page either query can return, the folded group is that group. */
  lemma {:induction false} GroupOfIsGroup(rows: seq<Row>, key: string)
    requires TextOrdered(rows) && GroupOf(rows, key).Some?
    ensures IsGroupOf(GroupOf(rows, key).value, rows, key)
  {
    var init, r := rows[..|rows| - 1], rows[|rows| - 1];
    assert rows == init + [r];
    GroupExists(init, key);
    if GroupOf(init, key).Some? {
      GroupOfIsGroup(init, key);
      var g := GroupOf(init, key).value;
      HeaderStays(g, GroupOf(rows, key).value, init, key, r);
      StagesGrow(g, init, key, r);
      StartMoves(g, r);
    } else {
      GroupStarts(init, r);
    }
  }

  /** The greatest run id among the attempts at one stage of one commit. */
  ghost predicate IsNewest(rows: seq<Row>, key: string, s: Stage, newest: Row) {
    newest in rows && InGroup(newest, key, s) && forall r :: r in rows && InGroup(r, key, s) ==> r.runId <= newest.runId
  }

  /** On any page a stage is shown from its newest attempt exactly when text order ranks
      every older attempt at it first. */
  lemma NewestShownIff(rows: seq<Row>, key: string, s: Stage, newest: Row)
    requires TextOrdered(rows) && IsNewest(rows, key, s, newest)
    ensures GroupOf(rows, key).Some? && s in GroupOf(rows, key).value.stages
    ensures GroupOf(rows, key).value.stages[s].runId == newest.runId <==>
            forall r :: r in rows && InGroup(r, key, s) && r.runId < newest.runId ==> RanksFirst(r.runId, newest.runId)
  {
    GroupRead(rows, key, s, newest);
    var chosen := GroupOf(rows, key).value.stages[s];
    if chosen.runId == newest.runId {
      forall r | r in rows && InGroup(r, key, s) && r.runId < newest.runId ensures RanksFirst(r.runId, newest.runId) {
        TextOrderAgrees(r.runId, newest.runId);
      }
    } else if RanksFirst(chosen.runId, newest.runId) {
      TextOrderAgrees(chosen.runId, newest.runId);
      TextBothWays(chosen.runId, newest.runId);
    }
  }

  /** What a group shows for a stage of which some row was read. */
  lemma GroupRead(rows: seq<Row>, key: string, s: Stage, r: Row)
    requires TextOrdered(rows) && r in rows && InGroup(r, key, s)
    ensures var g := GroupOf(rows, key);
            && g.Some? && s in g.value.stages && g.value.stages[s] in rows && InGroup(g.value.stages[s], key, s)
            && forall x :: x in rows && InGroup(x, key, s) ==> TextAtMost(x.runId, g.value.stages[s].runId)
  {
    var i :| 0 <= i < |rows| && rows[i] == r;
    assert GroupKeys(rows)[i] == key;
    GroupExists(rows, key);
    GroupOfIsGroup(rows, key);
    assert HasStage(GroupOf(rows, key).value, rows, key, s);
  }

  /** With repository names free of colons, the run id identifies the attempt. */
  lemma AttemptOfRun(rows: seq<Row>, key: string, s: Stage, a: Row, b: Row)
    requires TextOrdered(rows) && a in rows && b in rows && InGroup(a, key, s) && InGroup(b, key, s)
    requires ':' !in a.repo && ':' !in b.repo && a.runId == b.runId
    ensures a == b
  {
    GroupKeyIdentifiesCommit(a, b);
  }

  /** So wherever runs 9 and 10 are attempts at the same stage, run 10 is not shown. */
  lemma NineHidesTen(rows: seq<Row>, key: string, s: Stage, older: Row, newer: Row)
    requires TextOrdered(rows) && older in rows && newer in rows && older.runId == 9 && newer.runId == 10
    requires InGroup(older, key, s) && InGroup(newer, key, s)
    ensures GroupOf(rows, key).Some? && s in GroupOf(rows, key).value.stages
    ensures GroupOf(rows, key).value.stages[s].runId != 10
  {
    GroupRead(rows, key, s, older);
    NineTen();
  }

  /** And such pages are read. */
  lemma NineThenTen(older: Row, newer: Row)
    requires older.runId == 9 && newer.runId == 10
    ensures TextOrdered([older, newer]) && !TextOrdered([newer, older])
  {
    NineTen();
    var hidden := [newer, older];
    assert hidden[1] == older && hidden[0] == newer;
  }

  // ----- What a group shows -----

  /** Three reports, in stage order: of the row taken for a stage, or pending under the run
      of the furthest stage. */
  lemma ShownStages(g: Group)
    ensures var shown := Shown(g);
            && |shown.stages| == 3
            && shown.stages[0].stage == Access && shown.stages[1].stage == Quality && shown.stages[2].stage == Package
            && (forall k :: 0 <= k < 3 ==>
                  var r := shown.stages[k];
                  if r.stage in g.stages
                  then r.status == g.stages[r.stage].status && r.detail == g.stages[r.stage].detail
                       && r.runId == g.stages[r.stage].runId && r.updatedAt == Some(g.stages[r.stage].updatedAt)
                  else r.status == Pending && r.detail == "" && r.updatedAt == None && r.runId == shown.runId)
            && shown.runId == (if Package in g.stages then g.stages[Package].runId
                               else if Quality in g.stages then g.stages[Quality].runId
                               else if Access in g.stages then g.stages[Access].runId else 0)
            && shown.repo == g.repo && shown.branch == g.branch && shown.sha == g.sha && shown.startedAt == g.startedAt
  {
  }

  /** The overall status: partial while a stage is pending; then success if all succeeded,
      else the worst of failure, running and cancelled. */
  lemma OverallIs(g: Group)
    ensures var shown := Shown(g);
            var a, q, p := shown.stages[0].status, shown.stages[1].status, shown.stages[2].status;
            && |shown.stages| == 3
            && (shown.overall == Partial <==> a == Pending || q == Pending || p == Pending)
            && (shown.overall == AllSuccess <==> a == Success && q == Success && p == Success)
            && (shown.overall == SomeFailure <==> Pending !in {a, q, p} && Failure in {a, q, p})
            && (shown.overall == StillRunning <==> Pending !in {a, q, p} && Failure !in {a, q, p} && Running in {a, q, p})
            && (shown.overall == SomeCancelled <==>
                  Pending !in {a, q, p} && Failure !in {a, q, p} && Running !in {a, q, p} && Cancelled in {a, q, p})
  {
    var reports := Reports(g);
    assert reports[0].status == ReportFor(g, Access).status;
    assert forall s :: AnyIs(reports, s) <==> s == reports[0].status || s == reports[1].status || s == reports[2].status;
  }

  // ----- Reading fewer rows -----

  ghost predicate Extends(a: Group, b: Group) {
    && a.repo == b.repo && a.branch == b.branch && a.sha == b.sha && b.startedAt <= a.startedAt
    && forall s :: s in a.stages ==> s in b.stages && a.stages[s] == b.stages[s]
  }

  lemma {:induction false} PrefixGroups(rows: seq<Row>, n: nat, key: string)
    requires n <= |rows| && GroupOf(rows[..n], key).Some?
    ensures GroupOf(rows, key).Some? && Extends(GroupOf(rows[..n], key).value, GroupOf(rows, key).value)
    decreases |rows|
  {
    if n < |rows| {
      assert rows[..|rows| - 1][..n] == rows[..n];
      PrefixGroups(rows[..|rows| - 1], n, key);
    } else {
      assert rows[..n] == rows;
    }
  }

  lemma {:induction false} DistinctPrefix(s: seq<string>, n: nat)
    requires n <= |s|
    ensures Distinct(s[..n]) <= Distinct(s)
  {
    if n < |s| {
      assert s[..|s| - 1][..n] == s[..n];
      DistinctPrefix(s[..|s| - 1], n);
    } else {
      assert s[..n] == s;
    }
  }

  /** With a smaller limit from the start, the runs shown are a prefix of the full list with
      the same headers; each stage is shown exactly as in the full list or as pending, and
      so is the overall status, with partial for pending. */
  lemma SmallerLimitHidesOnly(rows: seq<Row>, n: nat, i: nat)
    requires n <= |rows| && i < |RunsOf(rows[..n])|
    ensures i < |RunsOf(rows)|
    ensures var few, full := RunsOf(rows[..n])[i], RunsOf(rows)[i];
            && few.repo == full.repo && few.branch == full.branch && few.sha == full.sha && full.startedAt <= few.startedAt
            && (forall k :: 0 <= k < 3 ==> few.stages[k] == full.stages[k] || few.stages[k].status == Pending)
            && (few.overall == full.overall || few.overall == Partial)
  {
    var keys, all := Distinct(GroupKeys(rows[..n])), Distinct(GroupKeys(rows));
    assert GroupKeys(rows)[..n] == GroupKeys(rows[..n]);
    DistinctPrefix(GroupKeys(rows), n);
    assert keys[i] == all[i];
    PrefixGroups(rows, n, keys[i]);
    ExtendedShows(GroupOf(rows[..n], keys[i]).value, GroupOf(rows, all[i]).value);
  }

  lemma ExtendedShows(a: Group, b: Group)
    requires Extends(a, b)
    ensures forall k :: 0 <= k < 3 ==> Reports(a)[k] == Reports(b)[k] || Reports(a)[k].status == Pending
    ensures Shown(a).overall == Shown(b).overall || Shown(a).overall == Partial
  {
  }
}
