/** Drift findings: reconciling the active ones with a new detection, matched by key
    (`replaceActiveFindings`), and repairing them. */
module DriftFindings {
  import opened Sequences

  datatype Status = Active | Resolved | Ignored

  /** `content` stands for severity, message and details. */
  datatype Finding = Finding(code: string, targetId: Option<string>, content: string)

  datatype Row = Row(project: string, finding: Finding, status: Status)

  type Table = map<nat, Row>

  function KeyText(code: string, targetId: Option<string>): string {
    code + ":" + targetId.GetOr("")
  }

  function Key(f: Finding): string {
    KeyText(f.code, f.targetId)
  }

  /** Codes have no colon, so the key identifies the code and the target. */
  lemma KeyIdentifies(a: Finding, b: Finding)
    requires ':' !in a.code && ':' !in b.code && Key(a) == Key(b)
    ensures a.code == b.code && a.targetId.GetOr("") == b.targetId.GetOr("")
  {
    var k, k' := Key(a), Key(b);
    assert k[|a.code|] == ':' && k'[|b.code|] == ':';
    assert forall i :: 0 <= i < |a.code| ==> k[i] == a.code[i];
    assert forall i :: 0 <= i < |b.code| ==> k'[i] == b.code[i];
    assert |a.code| == |b.code|;
    assert a.code == k[..|a.code|] && b.code == k'[..|b.code|];
    assert a.targetId.GetOr("") == k[|a.code| + 1..] && b.targetId.GetOr("") == k'[|b.code| + 1..];
  }

  predicate IsActive(t: Table, project: string, id: nat) {
    id in t && t[id].project == project && t[id].status == Active
  }

  function ActiveKeys(t: Table, project: string): set<string> {
    set id | id in t && IsActive(t, project, id) :: Key(t[id].finding)
  }

  function KeySet(fs: seq<Finding>): set<string> {
    set f | f in fs :: Key(f)
  }

  /** The order in which the active rows are read; ties leave it open. */
  ghost predicate Lists(listing: seq<nat>, t: Table, project: string) {
    NoRepeats(listing) && forall id :: id in listing <==> IsActive(t, project, id)
  }

  // ----- What the reconciliation does -----

  function FirstWithKey(listing: seq<nat>, t: Table, key: string): (r: Option<nat>)
    requires forall id :: id in listing ==> id in t
    ensures r.Some? ==> r.value in listing && Key(t[r.value].finding) == key
    ensures r.None? ==> forall id :: id in listing ==> Key(t[id].finding) != key
  {
    if listing == [] then None
    else if Key(t[listing[0]].finding) == key then Some(listing[0])
    else FirstWithKey(listing[1..], t, key)
  }

  function LastContent(fs: seq<Finding>, key: string): Option<string> {
    if fs == [] then None
    else if Key(fs[|fs| - 1]) == key then Some(fs[|fs| - 1].content)
    else LastContent(fs[..|fs| - 1], key)
  }

  function WithContent(t: Table, id: nat, content: string): Table
    requires id in t
  {
    t[id := t[id].(finding := t[id].finding.(content := content))]
  }

  /** The fate of an old row: untouched unless listed; resolved if its key is gone; else kept,
      and refreshed if it is the first listed row of its key. */
  function Fate(id: nat, t: Table, listing: seq<nat>, keys: set<string>, done: seq<Finding>): Row
    requires id in t && forall i :: i in listing ==> i in t
  {
    var row := t[id];
    var key := Key(row.finding);
    if id !in listing then row
    else if key !in keys then row.(status := Resolved)
    else if FirstWithKey(listing, t, key) == Some(id) && LastContent(done, key).Some? then
      row.(finding := row.finding.(content := LastContent(done, key).value))
    else row
  }

  /** The findings no listed row has the key of, in order. */
  function Missing(t: Table, listing: seq<nat>, fs: seq<Finding>): seq<Finding>
    requires forall id :: id in listing ==> id in t
  {
    if fs == [] then []
    else
      var f := fs[|fs| - 1];
      Missing(t, listing, fs[..|fs| - 1]) + if FirstWithKey(listing, t, Key(f)).None? then [f] else []
  }

  function Refreshed(t: Table, listing: seq<nat>, keys: set<string>, done: seq<Finding>): Table
    requires forall id :: id in listing ==> id in t
  {
    map id | id in t :: Fate(id, t, listing, keys, done)
  }

  function NewRows(project: string, fs: seq<Finding>, firstNew: nat): (rows: Table)
    ensures forall id :: id in rows <==> firstNew <= id < firstNew + |fs|
    ensures forall id :: id in rows ==> rows[id] == Row(project, fs[id - firstNew], Active)
  {
    if fs == [] then map[]
    else NewRows(project, fs[..|fs| - 1], firstNew)[firstNew + |fs| - 1 := Row(project, fs[|fs| - 1], Active)]
  }

  /** The table after the given findings have been dealt with. */
  function Reconciled(t: Table, listing: seq<nat>, project: string, keys: set<string>, done: seq<Finding>, firstNew: nat): Table
    requires forall id :: id in listing ==> id in t
  {
    Refreshed(t, listing, keys, done) + NewRows(project, Missing(t, listing, done), firstNew)
  }

  lemma MissingSnoc(t: Table, listing: seq<nat>, done: seq<Finding>, f: Finding)
    requires forall id :: id in listing ==> id in t
    ensures Missing(t, listing, done + [f]) ==
            Missing(t, listing, done) + if FirstWithKey(listing, t, Key(f)).None? then [f] else []
  {
  }

  lemma RefreshOne(t: Table, listing: seq<nat>, keys: set<string>, done: seq<Finding>, f: Finding, id: nat)
    requires (forall id :: id in listing ==> id in t) && Key(f) in keys && FirstWithKey(listing, t, Key(f)) == Some(id)
    ensures var before := Refreshed(t, listing, keys, done);
            Refreshed(t, listing, keys, done + [f]) ==
            before[id := before[id].(finding := before[id].finding.(content := f.content))]
  {
  }

  lemma RefreshNone(t: Table, listing: seq<nat>, keys: set<string>, done: seq<Finding>, f: Finding)
    requires (forall id :: id in listing ==> id in t) && FirstWithKey(listing, t, Key(f)).None?
    ensures Refreshed(t, listing, keys, done + [f]) == Refreshed(t, listing, keys, done)
  {
  }

  lemma NewRowsSnoc(project: string, fs: seq<Finding>, f: Finding, firstNew: nat)
    ensures NewRows(project, fs + [f], firstNew) == NewRows(project, fs, firstNew)[firstNew + |fs| := Row(project, f, Active)]
  {
  }

  lemma ReconcileKnown(t: Table, listing: seq<nat>, project: string, keys: set<string>, done: seq<Finding>, firstNew: nat,
                       f: Finding, id: nat)
    requires (forall i :: i in listing ==> i in t) && (forall i :: i in t ==> i < firstNew)
    requires Key(f) in keys && FirstWithKey(listing, t, Key(f)) == Some(id)
    ensures var now := Reconciled(t, listing, project, keys, done, firstNew);
            && id in now && Missing(t, listing, done + [f]) == Missing(t, listing, done)
            && Reconciled(t, listing, project, keys, done + [f], firstNew) ==
               WithContent(now, id, f.content)
  {
    MissingSnoc(t, listing, done, f);
    assert Missing(t, listing, done) + [] == Missing(t, listing, done);
    RefreshOne(t, listing, keys, done, f, id);
    OverwriteLeft(Refreshed(t, listing, keys, done), NewRows(project, Missing(t, listing, done), firstNew), id,
                  Refreshed(t, listing, keys, done + [f])[id]);
  }

  lemma ReconcileNew(t: Table, listing: seq<nat>, project: string, keys: set<string>, done: seq<Finding>, firstNew: nat, f: Finding)
    requires (forall i :: i in listing ==> i in t) && FirstWithKey(listing, t, Key(f)).None?
    ensures Missing(t, listing, done + [f]) == Missing(t, listing, done) + [f]
    ensures Reconciled(t, listing, project, keys, done + [f], firstNew) ==
            Reconciled(t, listing, project, keys, done, firstNew)[firstNew + |Missing(t, listing, done)| := Row(project, f, Active)]
  {
    MissingSnoc(t, listing, done, f);
    RefreshNone(t, listing, keys, done, f);
    var missing := Missing(t, listing, done);
    NewRowsSnoc(project, missing, f, firstNew);
    ExtendRight(Refreshed(t, listing, keys, done), NewRows(project, missing, firstNew), firstNew + |missing|,
                Row(project, f, Active));
  }

  /** What one pass through the loop does. */
  lemma ReconcileStep(t: Table, listing: seq<nat>, project: string, keys: set<string>, done: seq<Finding>, firstNew: nat, f: Finding)
    requires (forall i :: i in listing ==> i in t) && (forall i :: i in t ==> i < firstNew) && Key(f) in keys
    ensures var now := Reconciled(t, listing, project, keys, done, firstNew);
            var known := FirstWithKey(listing, t, Key(f));
            && t.Keys <= now.Keys
            && Reconciled(t, listing, project, keys, done + [f], firstNew) ==
               (if known.Some? then WithContent(now, known.value, f.content)
                else now[firstNew + |Missing(t, listing, done)| := Row(project, f, Active)])
            && |Missing(t, listing, done + [f])| == |Missing(t, listing, done)| + if known.Some? then 0 else 1
  {
    var known := FirstWithKey(listing, t, Key(f));
    if known.Some? {
      ReconcileKnown(t, listing, project, keys, done, firstNew, f, known.value);
    } else {
      ReconcileNew(t, listing, project, keys, done, firstNew, f);
    }
  }

  lemma ExtendRight(a: Table, b: Table, id: nat, row: Row)
    ensures a + b[id := row] == (a + b)[id := row]
  {
  }

  lemma OverwriteLeft(a: Table, b: Table, id: nat, row: Row)
    requires id !in b
    ensures a[id := row] + b == (a + b)[id := row]
  {
  }

  class FindingsRepository {
    var table: Table
    var nextId: nat

    ghost predicate Valid()
      reads this
    {
      forall id :: id in table ==> id < nextId
    }

    constructor ()
      ensures Valid() && table == map[]
    {
      table, nextId := map[], 0;
    }

    method FindActiveByProject(project: string) returns (listing: seq<nat>)
      ensures Lists(listing, table, project)
      ensures forall id :: id in listing <==> id in table && table[id].project == project && table[id].status == Active
    {
      var rest := set id | id in table && IsActive(table, project, id);
      ghost var all := rest;
      listing := [];
      while rest != {}
        invariant rest <= all && NoRepeats(listing) && forall id :: id in listing <==> id in all - rest
        decreases rest
      {
        var id :| id in rest;
        assert id !in listing;
        listing := listing + [id];
        rest := rest - {id};
      }
    }

    method ResolveMissing(listing: seq<nat>, keys: set<string>)
      requires NoRepeats(listing) && forall id :: id in listing ==> id in table
      modifies `table
      ensures table == Refreshed(old(table), listing, keys, [])
    {
      ghost var before := table;
      for i := 0 to |listing|
        invariant table.Keys == before.Keys
        invariant forall id :: id in before ==>
                    table[id] == if id in listing[..i] && Key(before[id].finding) !in keys then before[id].(status := Resolved)
                                 else before[id]
      {
        var id := listing[i];
        assert id !in listing[..i];
        assert listing[..i + 1] == listing[..i] + [id];
        if Key(table[id].finding) !in keys {
          table := table[id := table[id].(status := Resolved)];
        }
      }
      assert listing[..|listing|] == listing;
    }

    /** One detected finding: refresh the first row listed with its key, or insert a row. */
    method Report(project: string, f: Finding, listing: seq<nat>, snapshot: Table)
      requires (forall id :: id in listing ==> id in snapshot) && snapshot.Keys <= table.Keys
      modifies this
      ensures var known := FirstWithKey(listing, snapshot, Key(f));
              && nextId == (if known.Some? then old(nextId) else old(nextId) + 1)
              && table == if known.Some? then WithContent(old(table), known.value, f.content)
                          else old(table)[old(nextId) := Row(project, f, Active)]
    {
      var current := FirstWithKey(listing, snapshot, Key(f));
      if current.Some? {
        table := WithContent(table, current.value, f.content);
      } else {
        table := table[nextId := Row(project, f, Active)];
        nextId := nextId + 1;
      }
    }

    /** The loop over the detected findings. */
    method ReportAll(project: string, findings: seq<Finding>, listing: seq<nat>, snapshot: Table, ghost keys: set<string>,
                     ghost firstNew: nat)
      requires (forall id :: id in listing ==> id in snapshot) && (forall id :: id in snapshot ==> id < firstNew)
      requires keys == KeySet(findings) && nextId == firstNew && table == Refreshed(snapshot, listing, keys, [])
      modifies this
      ensures nextId == firstNew + |Missing(snapshot, listing, findings)|
      ensures table == Reconciled(snapshot, listing, project, keys, findings, firstNew)
    {
      assert table == Reconciled(snapshot, listing, project, keys, findings[..0], firstNew);
      for i := 0 to |findings|
        invariant nextId == firstNew + |Missing(snapshot, listing, findings[..i])|
        invariant table == Reconciled(snapshot, listing, project, keys, findings[..i], firstNew)
      {
        assert findings[..i + 1] == findings[..i] + [findings[i]];
        ReconcileStep(snapshot, listing, project, keys, findings[..i], firstNew, findings[i]);
        Report(project, findings[i], listing, snapshot);
      }
      assert findings[..|findings|] == findings;
    }

    /** Every old row meets its fate and the missing findings are inserted. */
    method ReplaceActiveFindings(project: string, findings: seq<Finding>) returns (ghost listing: seq<nat>)
      requires Valid()
      modifies this
      ensures Valid() && Lists(listing, old(table), project)
      ensures table == Reconciled(old(table), listing, project, KeySet(findings), findings, old(nextId))
      ensures nextId == old(nextId) + |Missing(old(table), listing, findings)|
    {
      var snapshot := table;
      ghost var firstNew := nextId;
      var existing := FindActiveByProject(project);
      listing := existing;
      var keys := KeySet(findings);
      ResolveMissing(existing, keys);
      ReportAll(project, findings, existing, snapshot, keys, firstNew);
    }

    method MarkStatus(id: nat, status: Status)
      requires status != Active
      modifies `table
      ensures table == if id in old(table) then old(table)[id := old(table)[id].(status := status)] else old(table)
    {
      if id in table {
        table := table[id := table[id].(status := status)];
      }
    }
  }

  // ----- What the reconciliation achieves -----

  lemma {:induction false} MissingMembers(t: Table, listing: seq<nat>, fs: seq<Finding>)
    requires forall id :: id in listing ==> id in t
    ensures forall f :: f in Missing(t, listing, fs) <==> f in fs && FirstWithKey(listing, t, Key(f)).None?
  {
    if fs != [] {
      var init, last := fs[..|fs| - 1], fs[|fs| - 1];
      MissingMembers(t, listing, init);
      assert forall f :: f in fs <==> f in init || f == last;
    }
  }

  /** The two kinds of rows there are afterwards. */
  lemma RowsAfter(t: Table, listing: seq<nat>, project: string, fs: seq<Finding>, firstNew: nat, id: nat)
    requires Lists(listing, t, project) && forall i :: i in t ==> i < firstNew
    ensures var after := Reconciled(t, listing, project, KeySet(fs), fs, firstNew);
            && (id in t ==> id in after && after[id] == Fate(id, t, listing, KeySet(fs), fs))
            && (id in after && id !in t ==>
                  after[id].project == project && after[id].status == Active && after[id].finding in fs
                  && FirstWithKey(listing, t, Key(after[id].finding)).None?)
  {
    var missing := Missing(t, listing, fs);
    MissingMembers(t, listing, fs);
    if id in NewRows(project, missing, firstNew) {
      assert missing[id - firstNew] in missing;
    }
  }

  lemma NewRowFor(t: Table, listing: seq<nat>, project: string, fs: seq<Finding>, firstNew: nat, f: Finding) returns (id: nat)
    requires Lists(listing, t, project) && (forall i :: i in t ==> i < firstNew)
    requires f in fs && FirstWithKey(listing, t, Key(f)).None?
    ensures var after := Reconciled(t, listing, project, KeySet(fs), fs, firstNew);
            id in after && id !in t && after[id] == Row(project, f, Active)
  {
    MissingMembers(t, listing, fs);
    id := RowAmongNew(project, Missing(t, listing, fs), firstNew, f);
  }

  lemma RowAmongNew(project: string, fs: seq<Finding>, firstNew: nat, f: Finding) returns (id: nat)
    requires f in fs
    ensures id >= firstNew && id in NewRows(project, fs, firstNew) && NewRows(project, fs, firstNew)[id] == Row(project, f, Active)
  {
    var r :| 0 <= r < |fs| && fs[r] == f;
    id := firstNew + r;
  }

  /** The project's active keys become exactly the detected ones, however often repeated. */
  lemma ActiveKeysAreDetected(t: Table, listing: seq<nat>, project: string, fs: seq<Finding>, firstNew: nat)
    requires Lists(listing, t, project) && forall i :: i in t ==> i < firstNew
    ensures ActiveKeys(Reconciled(t, listing, project, KeySet(fs), fs, firstNew), project) == KeySet(fs)
  {
    var after := Reconciled(t, listing, project, KeySet(fs), fs, firstNew);
    forall key | key in ActiveKeys(after, project) ensures key in KeySet(fs) {
      var id :| id in after && IsActive(after, project, id) && Key(after[id].finding) == key;
      RowsAfter(t, listing, project, fs, firstNew, id);
    }
    forall key | key in KeySet(fs) ensures key in ActiveKeys(after, project) {
      var f :| f in fs && Key(f) == key;
      var id: nat;
      var first := FirstWithKey(listing, t, key);
      if first.Some? {
        id := first.value;
        RowsAfter(t, listing, project, fs, firstNew, id);
      } else {
        id := NewRowFor(t, listing, project, fs, firstNew, f);
      }
      assert IsActive(after, project, id);
    }
  }

  /** Active rows with a detected key stay, under their id; the other active rows of the
      project are resolved; inactive rows and other projects' rows are untouched. */
  lemma OldRowsAreKeptOrResolved(t: Table, listing: seq<nat>, project: string, fs: seq<Finding>, firstNew: nat, id: nat)
    requires Lists(listing, t, project) && (forall i :: i in t ==> i < firstNew) && id in t
    ensures var after := Reconciled(t, listing, project, KeySet(fs), fs, firstNew);
            && id in after
            && (if t[id].project != project || t[id].status != Active then after[id] == t[id]
                else Key(after[id].finding) == Key(t[id].finding)
                     && after[id].status == if Key(t[id].finding) in KeySet(fs) then Active else Resolved)
  {
  }

  lemma {:induction false} NothingMissing(t: Table, listing: seq<nat>, project: string, fs: seq<Finding>)
    requires Lists(listing, t, project) && KeySet(fs) <= ActiveKeys(t, project)
    ensures Missing(t, listing, fs) == []
  {
    if fs != [] {
      var init, last := fs[..|fs| - 1], fs[|fs| - 1];
      assert last in fs && Key(last) in KeySet(fs);
      assert forall f :: f in init ==> f in fs;
      NothingMissing(t, listing, project, init);
      var id :| id in t && IsActive(t, project, id) && Key(t[id].finding) == Key(last);
      assert id in listing;
    }
  }

  lemma IdleOnSameKeys(t: Table, listing: seq<nat>, project: string, fs: seq<Finding>, firstNew: nat)
    requires Lists(listing, t, project) && forall i :: i in t ==> i < firstNew
    requires ActiveKeys(t, project) == KeySet(fs)
    ensures var after := Reconciled(t, listing, project, KeySet(fs), fs, firstNew);
            after.Keys == t.Keys && forall id :: id in t ==> after[id].status == t[id].status
  {
    var after := Reconciled(t, listing, project, KeySet(fs), fs, firstNew);
    forall id | id in t ensures id in after && after[id].status == t[id].status {
      OldRowsAreKeptOrResolved(t, listing, project, fs, firstNew, id);
      if IsActive(t, project, id) {
        assert Key(t[id].finding) in ActiveKeys(t, project);
      }
    }
    NothingMissing(t, listing, project, fs);
  }

  /** An immediate second detection of the same findings inserts and resolves nothing,
      in whatever order the active rows are now read. */
  lemma SecondRunIsIdle(t: Table, listing: seq<nat>, project: string, fs: seq<Finding>, firstNew: nat,
                        listing': seq<nat>, firstNew': nat)
    requires Lists(listing, t, project) && forall i :: i in t ==> i < firstNew
    requires var once := Reconciled(t, listing, project, KeySet(fs), fs, firstNew);
             Lists(listing', once, project) && forall i :: i in once ==> i < firstNew'
    ensures var once := Reconciled(t, listing, project, KeySet(fs), fs, firstNew);
            var twice := Reconciled(once, listing', project, KeySet(fs), fs, firstNew');
            twice.Keys == once.Keys && forall id :: id in once ==> twice[id].status == once[id].status
  {
    ActiveKeysAreDetected(t, listing, project, fs, firstNew);
    IdleOnSameKeys(Reconciled(t, listing, project, KeySet(fs), fs, firstNew), listing', project, fs, firstNew');
  }

  // ----- What is inserted and what is refreshed -----

  /** The findings whose key no active row of the project has, repeats included. */
  function Unknown(t: Table, project: string, fs: seq<Finding>): seq<Finding> {
    Filter((f: Finding) => Key(f) !in ActiveKeys(t, project), fs)
  }

  lemma {:induction false} MissingAreUnknown(t: Table, listing: seq<nat>, project: string, fs: seq<Finding>)
    requires Lists(listing, t, project)
    ensures Missing(t, listing, fs) == Unknown(t, project, fs)
  {
    if fs != [] {
      var init, last := fs[..|fs| - 1], fs[|fs| - 1];
      MissingAreUnknown(t, listing, project, init);
      InitAndLast(fs);
      FilterConcat((f: Finding) => Key(f) !in ActiveKeys(t, project), init, [last]);
      KnownIff(t, listing, project, Key(last));
      assert [last][1..] == [];
    }
  }

  lemma KnownIff(t: Table, listing: seq<nat>, project: string, key: string)
    requires Lists(listing, t, project)
    ensures FirstWithKey(listing, t, key).None? <==> key !in ActiveKeys(t, project)
  {
    if id :| id in t && IsActive(t, project, id) && Key(t[id].finding) == key {
      assert id in listing;
    }
  }

  /** Exactly those findings are inserted, one new row each, in order and under fresh ids. */
  lemma InsertedRows(t: Table, listing: seq<nat>, project: string, fs: seq<Finding>, firstNew: nat)
    requires Lists(listing, t, project) && forall i :: i in t ==> i < firstNew
    ensures var after, unknown := Reconciled(t, listing, project, KeySet(fs), fs, firstNew), Unknown(t, project, fs);
            && (forall id :: id in after <==> id in t || firstNew <= id < firstNew + |unknown|)
            && forall id :: firstNew <= id < firstNew + |unknown| ==> after[id] == Row(project, unknown[id - firstNew], Active)
  {
    MissingAreUnknown(t, listing, project, fs);
  }

  lemma {:induction false} LastContentAt(fs: seq<Finding>, key: string, k: nat)
    requires k < |fs| && Key(fs[k]) == key && forall j :: k < j < |fs| ==> Key(fs[j]) != key
    ensures LastContent(fs, key) == Some(fs[k].content)
  {
    if k < |fs| - 1 {
      LastContentAt(fs[..|fs| - 1], key, k);
    }
  }

  lemma {:induction false} FirstWithKeyAt(listing: seq<nat>, t: Table, key: string, m: nat)
    requires (forall id :: id in listing ==> id in t) && m < |listing| && Key(t[listing[m]].finding) == key
    requires forall j :: 0 <= j < m ==> Key(t[listing[j]].finding) != key
    ensures FirstWithKey(listing, t, key) == Some(listing[m])
  {
    if m > 0 {
      assert Key(t[listing[0]].finding) != key;
      FirstWithKeyAt(listing[1..], t, key, m - 1);
    }
  }

  /** Of the rows read with a detected key, the first gets the content of the last finding
      with that key, and keeps everything else. */
  lemma FirstRowIsRefreshed(t: Table, listing: seq<nat>, project: string, fs: seq<Finding>, firstNew: nat, m: nat, k: nat)
    requires Lists(listing, t, project) && (forall i :: i in t ==> i < firstNew) && m < |listing| && k < |fs|
    requires forall j :: 0 <= j < |listing| ==> listing[j] in t
    requires var key := Key(t[listing[m]].finding);
             && (forall j :: 0 <= j < m ==> Key(t[listing[j]].finding) != key)
             && Key(fs[k]) == key && forall j :: k < j < |fs| ==> Key(fs[j]) != key
    ensures var id := listing[m];
            var after := Reconciled(t, listing, project, KeySet(fs), fs, firstNew);
            id in after && after[id] == t[id].(finding := t[id].finding.(content := fs[k].content))
  {
    var id := listing[m];
    var key := Key(t[id].finding);
    assert id in listing && fs[k] in fs && key in KeySet(fs);
    FirstWithKeyAt(listing, t, key, m);
    LastContentAt(fs, key, k);
    RowsAfter(t, listing, project, fs, firstNew, id);
  }

  // ----- Whether the active rows mirror the detection -----

  predicate Mirrors(row: Row, fs: seq<Finding>) {
    exists f :: f in fs && Key(f) == Key(row.finding) && f.content == row.finding.content
  }

  lemma {:induction false} LastContentIsDetected(fs: seq<Finding>, key: string)
    ensures LastContent(fs, key).Some? <==> key in KeySet(fs)
    ensures LastContent(fs, key).Some? ==> exists f :: f in fs && Key(f) == key && f.content == LastContent(fs, key).value
  {
    if fs != [] {
      var init, last := fs[..|fs| - 1], fs[|fs| - 1];
      LastContentIsDetected(init, key);
      assert forall f :: f in fs <==> f in init || f == last;
      assert key in KeySet(fs) <==> key in KeySet(init) || key == Key(last);
    }
  }

  /** A kept row that is not the first of its key. */
  predicate Repeated(t: Table, listing: seq<nat>, project: string, fs: seq<Finding>, id: nat)
    requires forall i :: i in listing ==> i in t
  {
    IsActive(t, project, id) && Key(t[id].finding) in KeySet(fs) && FirstWithKey(listing, t, Key(t[id].finding)) != Some(id)
  }

  /** Only the first row listed with a key is refreshed.  So afterwards every active row
      shows a detected content iff each kept row that is not the first of its key already
      did: with repeated keys a second detection can leave stale rows behind. */
  lemma StaleRowsAreTheRepeatedOnes(t: Table, listing: seq<nat>, project: string, fs: seq<Finding>, firstNew: nat)
    requires Lists(listing, t, project) && forall i :: i in t ==> i < firstNew
    ensures var after := Reconciled(t, listing, project, KeySet(fs), fs, firstNew);
            (forall id :: IsActive(after, project, id) ==> Mirrors(after[id], fs)) <==>
            (forall id :: Repeated(t, listing, project, fs, id) ==> Mirrors(t[id], fs))
  {
    var after := Reconciled(t, listing, project, KeySet(fs), fs, firstNew);
    forall id ensures IsActive(after, project, id) ==>
                        (Mirrors(after[id], fs) || (Repeated(t, listing, project, fs, id) && after[id] == t[id])) {
      RowsAfter(t, listing, project, fs, firstNew, id);
      if id in t {
        LastContentIsDetected(fs, Key(t[id].finding));
      }
    }
    forall id | Repeated(t, listing, project, fs, id) ensures IsActive(after, project, id) && after[id] == t[id] {
      RowsAfter(t, listing, project, fs, firstNew, id);
    }
  }
}
