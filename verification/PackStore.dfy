/** MatchDriverPacks: regrouping the rows of the left join, then the matcher. */
module PackStore {
  import opened DriverPacks
  import opened StableSort

  /** The columns of a version, its pack and its blob. */
  datatype Head = Head(id: nat, packId: nat, vendor: string, model: string, osFamily: string, osVersion: string,
                       tag: string, blobKey: string)

  /** A version as stored, with its rules. */
  datatype Stored = Stored(head: Head, rules: seq<Rule>)

  datatype Row = Row(head: Head, rule: Rule)

  datatype Candidate = Candidate(pv: PackVersion, blobKey: string)

  datatype Groups = Groups(byId: map<nat, Candidate>, order: seq<nat>)

  datatype Matched = Matched(id: nat, vendor: string, model: string, tag: string, blobKey: string)

  const NO_RULE := Rule("", "")

  function VersionWith(h: Head, rules: seq<Rule>): PackVersion {
    PackVersion(h.id, h.packId, h.vendor, h.model, h.osFamily, h.osVersion, h.tag, rules)
  }

  // ----- the query -----

  function RuleRows(h: Head, rules: seq<Rule>): seq<Row> {
    if rules == [] then [] else RuleRows(h, rules[..|rules| - 1]) + [Row(h, rules[|rules| - 1])]
  }

  function VersionRows(v: Stored): seq<Row> {
    if v.rules == [] then [Row(v.head, NO_RULE)] else RuleRows(v.head, v.rules)
  }

  function LeftJoin(table: seq<Stored>): seq<Row> {
    if table == [] then [] else LeftJoin(table[..|table| - 1]) + VersionRows(table[|table| - 1])
  }

  function OfFamily(family: string, table: seq<Stored>): seq<Stored> {
    if table == [] then []
    else
      var v := table[|table| - 1];
      OfFamily(family, table[..|table| - 1]) + (if Lower(v.head.osFamily) == Lower(family) then [v] else [])
  }

  ghost predicate Increasing(table: seq<Stored>) {
    forall i, j :: 0 <= i < j < |table| ==> table[i].head.id < table[j].head.id
  }

  ghost predicate OrderedById(rows: seq<Row>) {
    forall i, j :: 0 <= i < j < |rows| ==> rows[i].head.id <= rows[j].head.id
  }

  /** What the query may return: the rows of the join, by id, with rows of one version in any order. */
  ghost predicate QueryResult(table: seq<Stored>, rows: seq<Row>) {
    OrderedById(rows) && multiset(rows) == multiset(LeftJoin(table))
  }

  // ----- regrouping -----

  function AddRow(g: Groups, row: Row): Groups {
    var id := row.head.id;
    var c := if id in g.byId then g.byId[id] else Candidate(VersionWith(row.head, []), row.head.blobKey);
    var order := if id in g.byId then g.order else g.order + [id];
    var rules := if row.rule.kind != "" then c.pv.rules + [row.rule] else c.pv.rules;
    Groups(g.byId[id := c.(pv := c.pv.(rules := rules))], order)
  }

  function Regroup(rows: seq<Row>): Groups {
    if rows == [] then Groups(map[], []) else AddRow(Regroup(rows[..|rows| - 1]), rows[|rows| - 1])
  }

  function RulesOf(rows: seq<Row>, id: nat): seq<Rule> {
    if rows == [] then []
    else
      var row := rows[|rows| - 1];
      RulesOf(rows[..|rows| - 1], id) + (if row.head.id == id && row.rule.kind != "" then [row.rule] else [])
  }

  ghost predicate FromRow(rows: seq<Row>, id: nat, c: Candidate) {
    exists row :: row in rows && row.head.id == id && c == Candidate(VersionWith(row.head, RulesOf(rows, id)), row.head.blobKey)
  }

  lemma {:induction false} RegroupKeepsHeads(rows: seq<Row>)
    ensures forall row :: row in rows ==> row.head.id in Regroup(rows).byId
    ensures forall id :: id in Regroup(rows).byId ==> FromRow(rows, id, Regroup(rows).byId[id])
  {
    if rows != [] {
      var front, row := rows[..|rows| - 1], rows[|rows| - 1];
      RegroupKeepsHeads(front);
      assert rows == front + [row];
      var g := Regroup(front);
      forall id | id in Regroup(rows).byId
        ensures FromRow(rows, id, Regroup(rows).byId[id])
      {
        RegroupStep(front, row, g, id);
      }
    }
  }

  lemma {:induction false} NoRowNoRules(rows: seq<Row>, id: nat)
    requires forall row :: row in rows ==> row.head.id != id
    ensures RulesOf(rows, id) == []
  {
    if rows != [] {
      NoRowNoRules(rows[..|rows| - 1], id);
      assert rows[|rows| - 1] in rows;
    }
  }

  lemma RegroupStep(front: seq<Row>, row: Row, g: Groups, id: nat)
    requires forall r :: r in front ==> r.head.id in g.byId
    requires id in g.byId ==> FromRow(front, id, g.byId[id])
    requires id in AddRow(g, row).byId
    ensures FromRow(front + [row], id, AddRow(g, row).byId[id])
  {
    var rows := front + [row];
    assert rows[..|rows| - 1] == front;
    assert RulesOf(front, id) + [] == RulesOf(front, id);
    if id in g.byId {
      var first :| first in front && first.head.id == id
                   && g.byId[id] == Candidate(VersionWith(first.head, RulesOf(front, id)), first.head.blobKey);
      assert first in rows;
      assert AddRow(g, row).byId[id] == Candidate(VersionWith(first.head, RulesOf(rows, id)), first.head.blobKey);
    } else {
      NoRowNoRules(front, id);
      assert row in rows;
      assert AddRow(g, row).byId[id] == Candidate(VersionWith(row.head, RulesOf(rows, id)), row.head.blobKey);
    }
  }

  ghost predicate Ascending(s: seq<nat>) { forall i, j :: 0 <= i < j < |s| ==> s[i] < s[j] }

  lemma {:induction false} RegroupOrder(rows: seq<Row>)
    requires OrderedById(rows)
    ensures Ascending(Regroup(rows).order)
    ensures forall id :: id in Regroup(rows).order <==> id in Regroup(rows).byId
  {
    if rows != [] {
      var front, row := rows[..|rows| - 1], rows[|rows| - 1];
      assert rows == front + [row];
      RegroupOrder(front);
      var g := Regroup(front);
      EarlierIds(front, row);
      OrderStep(g, row);
    }
  }

  lemma EarlierIds(front: seq<Row>, row: Row)
    requires OrderedById(front + [row])
    ensures forall id :: id in Regroup(front).byId ==> id <= row.head.id
  {
    hide Regroup, RulesOf;
    RegroupKeepsHeads(front);
    forall id | id in Regroup(front).byId
      ensures id <= row.head.id
    {
      assert FromRow(front, id, Regroup(front).byId[id]);
      var k :| 0 <= k < |front| && front[k].head.id == id;
      var rows := front + [row];
      assert rows[k] == front[k] && rows[|front|] == row;
    }
  }

  lemma OrderStep(g: Groups, row: Row)
    requires Ascending(g.order) && forall id :: id in g.order <==> id in g.byId
    requires forall id :: id in g.byId ==> id <= row.head.id
    ensures Ascending(AddRow(g, row).order)
    ensures forall id :: id in AddRow(g, row).order <==> id in AddRow(g, row).byId
  {
    forall i | 0 <= i < |g.order|
      ensures g.order[i] <= row.head.id && g.order[i] in g.byId
    {
      assert g.order[i] in g.order;
    }
  }

  lemma WithoutLast(s: seq<nat>)
    requires Ascending(s) && s != []
    ensures Ascending(s[..|s| - 1])
    ensures forall x :: x in s[..|s| - 1] <==> x in s && x != s[|s| - 1]
    ensures forall x :: x in s ==> x <= s[|s| - 1]
  {
    assert s == s[..|s| - 1] + [s[|s| - 1]];
  }

  lemma {:induction false} AscendingUnique(a: seq<nat>, b: seq<nat>)
    requires Ascending(a) && Ascending(b) && forall x :: x in a <==> x in b
    ensures a == b
    decreases |a|
  {
    hide Ascending;
    assert a != [] ==> a[|a| - 1] in b;
    assert b != [] ==> b[|b| - 1] in a;
    if a != [] {
      WithoutLast(a);
      WithoutLast(b);
      assert a[|a| - 1] == b[|b| - 1];
      var fa, fb := a[..|a| - 1], b[..|b| - 1];
      forall x
        ensures x in fa <==> x in fb
      {
        assert x in fa <==> x in a && x != a[|a| - 1];
        assert x in fb <==> x in b && x != b[|b| - 1];
      }
      AscendingUnique(fa, fb);
      assert a == a[..|a| - 1] + [a[|a| - 1]] && b == b[..|b| - 1] + [b[|b| - 1]];
    }
  }

  // ----- regrouping restores the table -----

  function Ids(table: seq<Stored>): seq<nat> { Map((v: Stored) => v.head.id, table) }

  lemma {:induction false} RuleRowsHold(h: Head, rules: seq<Rule>, row: Row)
    ensures multiset(RuleRows(h, rules))[row] == if row.head == h then multiset(rules)[row.rule] else 0
  {
    if rules != [] {
      RuleRowsHold(h, rules[..|rules| - 1], row);
      assert rules == rules[..|rules| - 1] + [rules[|rules| - 1]];
    }
  }

  lemma VersionRowsHold(v: Stored, row: Row)
    ensures row in multiset(VersionRows(v)) ==> row.head == v.head
    ensures row.rule.kind != "" && row.head == v.head ==> multiset(VersionRows(v))[row] == multiset(v.rules)[row.rule]
  {
    hide RuleRows;
    RuleRowsHold(v.head, v.rules, row);
  }

  lemma VersionHasRows(v: Stored) returns (row: Row)
    ensures row in multiset(VersionRows(v)) && row.head == v.head
  {
    hide RuleRows;
    row := Row(v.head, if v.rules == [] then NO_RULE else v.rules[0]);
    RuleRowsHold(v.head, v.rules, row);
  }

  lemma JoinSplit(table: seq<Stored>)
    requires table != []
    ensures multiset(LeftJoin(table)) == multiset(LeftJoin(table[..|table| - 1])) + multiset(VersionRows(table[|table| - 1]))
    ensures forall v :: v in table <==> v in table[..|table| - 1] || v == table[|table| - 1]
  {
    hide VersionRows, LeftJoin;
    LastOf(table);
    JoinStep(table);
  }

  lemma JoinStep(table: seq<Stored>)
    requires table != []
    ensures LeftJoin(table) == LeftJoin(table[..|table| - 1]) + VersionRows(table[|table| - 1])
  {
    hide VersionRows;
  }

  lemma LastOf<T>(s: seq<T>)
    requires s != []
    ensures forall x :: x in s <==> x in s[..|s| - 1] || x == s[|s| - 1]
  {
    assert s == s[..|s| - 1] + [s[|s| - 1]];
  }

  /** A row of the join comes from one version of the table. */
  lemma {:induction false} RowHasVersion(table: seq<Stored>, row: Row) returns (v: Stored)
    requires row in multiset(LeftJoin(table))
    ensures v in table && v.head == row.head
  {
    hide VersionRows;
    JoinSplit(table);
    if row in multiset(LeftJoin(table[..|table| - 1])) {
      v := RowHasVersion(table[..|table| - 1], row);
    } else {
      v := table[|table| - 1];
      VersionRowsHold(v, row);
    }
  }

  lemma {:induction false} VersionHasRow(table: seq<Stored>, v: Stored) returns (row: Row)
    requires v in table
    ensures row in multiset(LeftJoin(table)) && row.head == v.head
  {
    hide VersionRows, LeftJoin;
    JoinSplit(table);
    if v in table[..|table| - 1] {
      row := VersionHasRow(table[..|table| - 1], v);
    } else {
      row := VersionHasRows(v);
    }
  }

  lemma {:induction false} JoinCounts(table: seq<Stored>, v: Stored, row: Row)
    requires Increasing(table) && v in table && row.head == v.head && row.rule.kind != ""
    ensures multiset(LeftJoin(table))[row] == multiset(v.rules)[row.rule]
  {
    hide VersionRows, LeftJoin;
    var front, last := table[..|table| - 1], table[|table| - 1];
    JoinSplit(table);
    VersionRowsHold(last, row);
    if v in front {
      JoinCounts(front, v, row);
    } else if row in multiset(LeftJoin(front)) {
      var w := RowHasVersion(front, row);
    }
  }

  lemma {:induction false} RulesCount(rows: seq<Row>, h: Head, r: Rule)
    requires forall row :: row in rows && row.head.id == h.id ==> row.head == h
    ensures multiset(RulesOf(rows, h.id))[r] == if r.kind != "" then multiset(rows)[Row(h, r)] else 0
  {
    if rows != [] {
      var front, last := rows[..|rows| - 1], rows[|rows| - 1];
      assert rows == front + [last];
      RulesCount(front, h, r);
    }
  }

  /** The group of a stored version: its own columns and blob key, and its rules with a type, as a multiset. */
  ghost predicate Restores(g: Groups, v: Stored) {
    && v.head.id in g.byId
    && var c := g.byId[v.head.id];
       && c.blobKey == v.head.blobKey
       && c.pv == VersionWith(v.head, c.pv.rules)
       && forall r: Rule :: multiset(c.pv.rules)[r] == if r.kind != "" then multiset(v.rules)[r] else 0
  }

  lemma SameHead(table: seq<Stored>, rows: seq<Row>, v: Stored, row: Row)
    requires Increasing(table) && v in table && multiset(rows) == multiset(LeftJoin(table))
    requires row in rows && row.head.id == v.head.id
    ensures row.head == v.head
  {
    hide LeftJoin;
    assert row in multiset(rows);
    var w := RowHasVersion(table, row);
    var i :| 0 <= i < |table| && table[i] == v;
    var j :| 0 <= j < |table| && table[j] == w;
  }

  lemma VersionIsRestored(table: seq<Stored>, rows: seq<Row>, v: Stored)
    requires Increasing(table) && QueryResult(table, rows) && v in table
    ensures Restores(Regroup(rows), v)
  {
    hide LeftJoin, Regroup, RulesOf;
    RegroupKeepsHeads(rows);
    var row := VersionHasRow(table, v);
    assert row in multiset(rows);
    assert row in rows;
    forall r | r in rows && r.head.id == v.head.id
      ensures r.head == v.head
    {
      SameHead(table, rows, v, r);
    }
    assert FromRow(rows, v.head.id, Regroup(rows).byId[v.head.id]);
    forall r: Rule
      ensures multiset(RulesOf(rows, v.head.id))[r] == if r.kind != "" then multiset(v.rules)[r] else 0
    {
      RulesCount(rows, v.head, r);
      if r.kind != "" {
        JoinCounts(table, v, Row(v.head, r));
      }
    }
  }

  /** Regrouping gives back every version of the table exactly once, in order of id, with its own columns,
      its own blob key and its own rules, whatever order the rows of one version arrive in. */
  lemma RegroupRestores(table: seq<Stored>, rows: seq<Row>)
    requires Increasing(table) && QueryResult(table, rows)
    ensures Regroup(rows).order == Ids(table)
    ensures Regroup(rows).byId.Keys == set v | v in table :: v.head.id
    ensures forall v :: v in table ==> Restores(Regroup(rows), v)
  {
    hide LeftJoin, Regroup, RulesOf, Restores, Ascending;
    var g := Regroup(rows);
    forall v | v in table
      ensures Restores(g, v) && v.head.id in g.byId
    {
      VersionIsRestored(table, rows, v);
      RestoredIsKnown(g, v);
    }
    forall id | id in g.byId
      ensures exists v :: v in table && v.head.id == id
    {
      RegroupKeepsHeads(rows);
      assert FromRow(rows, id, g.byId[id]);
      var row :| row in rows && row.head.id == id;
      assert row in multiset(rows);
      var v := RowHasVersion(table, row);
    }
    RegroupOrder(rows);
    IdsAscend(table);
    forall id
      ensures id in g.order <==> id in Ids(table)
    {
      assert id in g.order <==> id in g.byId;
    }
    AscendingUnique(g.order, Ids(table));
  }

  lemma RestoredIsKnown(g: Groups, v: Stored)
    requires Restores(g, v)
    ensures v.head.id in g.byId
  {
  }

  lemma IdsAscend(table: seq<Stored>)
    requires Increasing(table)
    ensures Ascending(Ids(table))
    ensures forall id :: id in Ids(table) <==> exists v :: v in table && v.head.id == id
  {
    forall id
      ensures id in Ids(table) <==> exists v :: v in table && v.head.id == id
    {
      if v :| v in table && v.head.id == id {
        var i :| 0 <= i < |table| && table[i] == v;
        assert Ids(table)[i] == id;
      }
      if id in Ids(table) {
        var i :| 0 <= i < |Ids(table)| && Ids(table)[i] == id;
        assert table[i] in table;
      }
    }
  }

  // ----- the loops of MatchDriverPacks -----

  /** Every id in the order list has a group that carries it. */
  ghost predicate Indexed(g: Groups) {
    && (forall i :: 0 <= i < |g.order| ==> g.order[i] in g.byId)
    && (forall id :: id in g.byId ==> g.byId[id].pv.id == id)
  }

  lemma {:induction false} RegroupIndexed(rows: seq<Row>)
    ensures Indexed(Regroup(rows))
  {
    if rows != [] {
      RegroupIndexed(rows[..|rows| - 1]);
    }
  }

  ghost function Candidates(g: Groups): seq<PackVersion>
    requires Indexed(g)
  {
    seq(|g.order|, i requires 0 <= i < |g.order| => g.byId[g.order[i]].pv)
  }

  function Show(c: Card, blobKey: string): Matched { Matched(c.id, c.vendor, c.model, c.tag, blobKey) }

  method RegroupRows(rows: seq<Row>) returns (byId: map<nat, Candidate>, order: seq<nat>)
    ensures Groups(byId, order) == Regroup(rows)
  {
    byId, order := map[], [];
    for i := 0 to |rows|
      invariant Groups(byId, order) == Regroup(rows[..i])
    {
      assert rows[..i + 1][..i] == rows[..i];
      var row := rows[i];
      var id := row.head.id;
      if id !in byId {
        byId := byId[id := Candidate(VersionWith(row.head, []), row.head.blobKey)];
        order := order + [id];
      }
      if row.rule.kind != "" {
        var c := byId[id];
        byId := byId[id := c.(pv := c.pv.(rules := c.pv.rules + [row.rule]))];
      }
    }
    assert rows[..|rows|] == rows;
  }

  /** Every selected version is shown, in order, with the blob key of its own group. */
  ghost predicate Shows(g: Groups, selected: seq<PackVersion>, out: seq<Matched>) {
    && |out| == |selected|
    && forall i :: 0 <= i < |out| ==>
         && selected[i].id in g.byId
         && out[i] == Matched(selected[i].id, selected[i].vendor, selected[i].model, selected[i].tag,
                              g.byId[selected[i].id].blobKey)
  }

  lemma SelectedAreIndexed(fp: Fingerprint, g: Groups, i: nat)
    requires Indexed(g) && i < |Answer(fp, Candidates(g))|
    ensures Answer(fp, Candidates(g))[i].id in g.byId
  {
    hide Answer, Wanted;
    AnswerIsExact(fp, Candidates(g));
    var pv := Answer(fp, Candidates(g))[i];
    InMultiset(Answer(fp, Candidates(g)), pv);
    InMultiset(Candidates(g), pv);
    assert pv in Candidates(g);
  }

  method MatchDriverPacks(fp: Fingerprint, rows: seq<Row>) returns (out: seq<Matched>)
    ensures Indexed(Regroup(rows))
    ensures Shows(Regroup(rows), Answer(fp, Candidates(Regroup(rows))), out)
  {
    hide Answer, Regroup;
    var byId, order := RegroupRows(rows);
    ghost var g := Groups(byId, order);
    RegroupIndexed(rows);
    var candidates: seq<PackVersion> := [];
    for i := 0 to |order|
      invariant candidates == Candidates(g)[..i]
    {
      candidates := candidates + [byId[order[i]].pv];
    }
    assert candidates == Candidates(g);
    var selected := Select(fp, candidates);
    out := [];
    for i := 0 to |selected|
      invariant Shows(g, selected[..i], out)
    {
      SelectedAreIndexed(fp, g, i);
      var pv := selected[i];
      out := out + [Matched(pv.id, pv.vendor, pv.model, pv.tag, byId[pv.id].blobKey)];
    }
    assert selected[..|selected|] == selected;
  }

  // ----- the whole query against the table -----

  function BlobKey(table: seq<Stored>, id: nat): string {
    if table == [] then "" else if table[0].head.id == id then table[0].head.blobKey else BlobKey(table[1..], id)
  }

  function Versions(table: seq<Stored>): seq<PackVersion> { Map((v: Stored) => VersionWith(v.head, v.rules), table) }

  /** What the table says should be staged: the answer over its versions, each with its own blob. */
  function Reference(fp: Fingerprint, table: seq<Stored>): seq<Matched> {
    Map((c: Card) => Show(c, BlobKey(table, c.id)), Cards(fp, Answer(fp, Versions(table))))
  }

  lemma {:induction false} BlobKeyOf(table: seq<Stored>, v: Stored)
    requires Increasing(table) && v in table
    ensures BlobKey(table, v.head.id) == v.head.blobKey
  {
    if table[0] != v {
      assert table == [table[0]] + table[1..];
      BlobKeyOf(table[1..], v);
      var i :| 1 <= i < |table| && table[i] == v;
    }
  }

  /** The columns of the row make it a version for the machine. */
  ghost predicate Stages(fp: Fingerprint, h: Head, rules: seq<Rule>) {
    && EqualFold(h.osFamily, fp.osFamily)
    && (h.osVersion in {"", "any"} || exists rest :: fp.osVersion == h.osVersion + rest)
    && exists r :: r in rules && Applies(fp, r)
  }

  function Shown(h: Head): Matched { Matched(h.id, h.vendor, h.model, h.tag, h.blobKey) }

  lemma StagesIsWanted(fp: Fingerprint, v: Stored)
    ensures Stages(fp, v.head, v.rules) <==> Wanted(fp, VersionWith(v.head, v.rules))
  {
    hide Wanted, Applies, EqualFold;
    WantedMeaning(fp, VersionWith(v.head, v.rules));
  }

  lemma ReferenceAt(fp: Fingerprint, table: seq<Stored>, i: nat, v: Stored)
    requires Increasing(table) && v in table && i < |Answer(fp, Versions(table))|
    requires Answer(fp, Versions(table))[i] == VersionWith(v.head, v.rules)
    ensures |Reference(fp, table)| == |Answer(fp, Versions(table))| && Reference(fp, table)[i] == Shown(v.head)
  {
    hide Answer, BestTier;
    BlobKeyOf(table, v);
    assert Cards(fp, Answer(fp, Versions(table)))[i] == CardOf(fp, VersionWith(v.head, v.rules));
  }

  /** The table's own answer, column by column: the rows of exactly those versions whose family and version fit and one
      of whose rules applies. */
  lemma ReferenceIsExact(fp: Fingerprint, table: seq<Stored>, m: Matched)
    requires Increasing(table)
    ensures m in Reference(fp, table) <==> exists v :: v in table && Stages(fp, v.head, v.rules) && m == Shown(v.head)
  {
    hide Reference, Answer, Wanted, Stages, Versions;
    var answer := Answer(fp, Versions(table));
    AnswerIsExact(fp, Versions(table));
    ReferenceLength(fp, table);
    if m in Reference(fp, table) {
      var i :| 0 <= i < |answer| && Reference(fp, table)[i] == m;
      InMultiset(answer, answer[i]);
      InMultiset(Versions(table), answer[i]);
      var v := VersionRow(table, answer[i]);
      StagesIsWanted(fp, v);
      ReferenceAt(fp, table, i, v);
    }
    if v :| v in table && Stages(fp, v.head, v.rules) && m == Shown(v.head) {
      var pv := VersionWith(v.head, v.rules);
      RowVersion(table, v);
      StagesIsWanted(fp, v);
      InMultiset(answer, pv);
      InMultiset(Versions(table), pv);
      var i :| 0 <= i < |answer| && answer[i] == pv;
      ReferenceAt(fp, table, i, v);
    }
  }

  lemma ReferenceLength(fp: Fingerprint, table: seq<Stored>)
    ensures |Reference(fp, table)| == |Answer(fp, Versions(table))|
  {
    hide Answer, BlobKey;
  }

  lemma VersionRow(table: seq<Stored>, pv: PackVersion) returns (v: Stored)
    requires pv in Versions(table)
    ensures v in table && pv == VersionWith(v.head, v.rules)
  {
    var j :| 0 <= j < |table| && Versions(table)[j] == pv;
    v := table[j];
  }

  lemma RowVersion(table: seq<Stored>, v: Stored)
    requires v in table
    ensures VersionWith(v.head, v.rules) in Versions(table)
  {
    var j :| 0 <= j < |table| && table[j] == v;
    assert Versions(table)[j] == VersionWith(v.head, v.rules);
  }

  lemma CandidatesAreVersions(table: seq<Stored>, rows: seq<Row>)
    requires Increasing(table) && QueryResult(table, rows) && Indexed(Regroup(rows))
    ensures AllSameUpToRuleOrder(Candidates(Regroup(rows)), Versions(table))
  {
    hide Regroup, QueryResult, Increasing;
    RegroupRestores(table, rows);
    var g := Regroup(rows);
    forall i | 0 <= i < |table|
      ensures SameUpToRuleOrder(Candidates(g)[i], Versions(table)[i])
    {
      assert g.order[i] == table[i].head.id;
      RestoredIsSame(g, table[i]);
    }
  }

  lemma RestoredIsSame(g: Groups, v: Stored)
    requires Restores(g, v)
    ensures SameUpToRuleOrder(g.byId[v.head.id].pv, VersionWith(v.head, v.rules))
  {
    var c := g.byId[v.head.id];
    forall r: Rule | r.kind != ""
      ensures r in c.pv.rules <==> r in v.rules
    {
      InMultiset(c.pv.rules, r);
      InMultiset(v.rules, r);
    }
  }

  lemma BlobsAgree(table: seq<Stored>, rows: seq<Row>, id: nat)
    requires Increasing(table) && QueryResult(table, rows) && id in Regroup(rows).byId
    ensures Regroup(rows).byId[id].blobKey == BlobKey(table, id)
  {
    hide Regroup, QueryResult, Increasing;
    RegroupRestores(table, rows);
    assert id in Regroup(rows).byId.Keys;
    var v :| v in table && v.head.id == id;
    BlobKeyOf(table, v);
  }

  /** For every order in which the database may return the rows, the staged list is the one the table defines. */
  lemma MatchIsReference(fp: Fingerprint, table: seq<Stored>, rows: seq<Row>, out: seq<Matched>)
    requires Increasing(table) && QueryResult(table, rows)
    requires Indexed(Regroup(rows)) && Shows(Regroup(rows), Answer(fp, Candidates(Regroup(rows))), out)
    ensures out == Reference(fp, table)
  {
    hide Regroup, QueryResult, Increasing, Answer, BestTier, BlobKey;
    var g := Regroup(rows);
    var got, want := Answer(fp, Candidates(g)), Answer(fp, Versions(table));
    CandidatesAreVersions(table, rows);
    AnswerForgetsRuleOrder(fp, Candidates(g), Versions(table));
    assert |got| == |Cards(fp, got)| == |Cards(fp, want)| == |want|;
    forall i | 0 <= i < |out|
      ensures out[i] == Reference(fp, table)[i]
    {
      BlobsAgree(table, rows, got[i].id);
      assert Cards(fp, got)[i] == CardOf(fp, got[i]);
    }
  }

  // ----- the family filter -----

  /** Every wanted version passes the clause: its family is, in lower case, that of the fingerprint. */
  ghost predicate FamiliesAgree(fp: Fingerprint, table: seq<Stored>) {
    forall v :: v in table && Wanted(fp, VersionWith(v.head, v.rules)) ==> Lower(v.head.osFamily) == Lower(fp.osFamily)
  }

  lemma {:induction false} FilteredChosen(fp: Fingerprint, table: seq<Stored>)
    ensures var part, all := Chosen(fp, Versions(OfFamily(fp.osFamily, table))), Chosen(fp, Versions(table));
            if FamiliesAgree(fp, table) then part == all else |part| < |all|
  {
    hide Wanted, Lower;
    if table != [] {
      var front, v := table[..|table| - 1], table[|table| - 1];
      FilteredChosen(fp, front);
      LastOf(table);
      ChosenPush(fp, front, v);
      ChosenPush(fp, OfFamily(fp.osFamily, front), v);
      assert table == front + [v];
      assert OfFamily(fp.osFamily, front) + [] == OfFamily(fp.osFamily, front);
    }
  }

  lemma ChosenPush(fp: Fingerprint, front: seq<Stored>, v: Stored)
    ensures var pv := VersionWith(v.head, v.rules);
            Chosen(fp, Versions(front + [v])) == Chosen(fp, Versions(front)) + (if Wanted(fp, pv) then [pv] else [])
  {
    hide Wanted;
    MapPush((w: Stored) => VersionWith(w.head, w.rules), front, v);
    var all := Versions(front + [v]);
    assert all[..|all| - 1] == Versions(front);
  }

  lemma AnswerLength(fp: Fingerprint, s: seq<PackVersion>)
    ensures |Answer(fp, s)| == |Chosen(fp, s)|
  {
    hide Chosen, VersionOrder;
    SortKeeps(VersionOrder(fp), Chosen(fp, s));
    assert |Answer(fp, s)| == |multiset(Answer(fp, s))| && |Chosen(fp, s)| == |multiset(Chosen(fp, s))|;
  }

  /** The WHERE clause leaves the answer alone exactly when every version the matcher wants passes it; the matcher
      folds case, the clause only lower-cases. */
  lemma FamilyFilterIsRedundant(fp: Fingerprint, table: seq<Stored>)
    ensures Answer(fp, Versions(OfFamily(fp.osFamily, table))) == Answer(fp, Versions(table))
            <==> FamiliesAgree(fp, table)
  {
    hide Wanted, Lower, Chosen, OfFamily;
    FilteredChosen(fp, table);
    AnswerLength(fp, Versions(OfFamily(fp.osFamily, table)));
    AnswerLength(fp, Versions(table));
  }

  lemma {:induction false} FamilyIsPart(family: string, table: seq<Stored>)
    requires Increasing(table)
    ensures Increasing(OfFamily(family, table))
    ensures forall v :: v in OfFamily(family, table) ==> v in table
  {
    hide Lower;
    if table != [] {
      var front, last := table[..|table| - 1], table[|table| - 1];
      FamilyIsPart(family, front);
      LastOf(table);
      var part := OfFamily(family, front);
      forall i | 0 <= i < |part|
        ensures part[i].head.id < last.head.id
      {
        assert part[i] in front;
      }
    }
  }

  lemma SameBlobs(fp: Fingerprint, table: seq<Stored>, part: seq<Stored>, i: nat)
    requires Increasing(table) && Increasing(part) && forall v :: v in part ==> v in table
    requires i < |Answer(fp, Versions(part))|
    ensures BlobKey(part, Answer(fp, Versions(part))[i].id) == BlobKey(table, Answer(fp, Versions(part))[i].id)
  {
    hide Answer, Wanted, BlobKey;
    var pv := Answer(fp, Versions(part))[i];
    AnswerIsExact(fp, Versions(part));
    InMultiset(Answer(fp, Versions(part)), pv);
    InMultiset(Versions(part), pv);
    var j :| 0 <= j < |part| && Versions(part)[j] == pv;
    BlobKeyOf(part, part[j]);
    BlobKeyOf(table, part[j]);
  }

  /** The rows of the filtered query, in any order the database may choose, give what the whole table defines,
      as long as every wanted version passes the filter. */
  lemma StagedListWhenFamiliesAgree(fp: Fingerprint, table: seq<Stored>, rows: seq<Row>, out: seq<Matched>)
    requires Increasing(table) && QueryResult(OfFamily(fp.osFamily, table), rows) && FamiliesAgree(fp, table)
    requires Indexed(Regroup(rows)) && Shows(Regroup(rows), Answer(fp, Candidates(Regroup(rows))), out)
    ensures out == Reference(fp, table)
  {
    hide Regroup, QueryResult, Answer, FamiliesAgree, BlobKey, Indexed, Shows, OfFamily, BestTier;
    var part := OfFamily(fp.osFamily, table);
    FamilyIsPart(fp.osFamily, table);
    MatchIsReference(fp, part, rows, out);
    FamilyFilterIsRedundant(fp, table);
    forall i | 0 <= i < |out|
      ensures Reference(fp, part)[i] == Reference(fp, table)[i]
    {
      SameBlobs(fp, table, part, i);
    }
  }

  /** The families that packs and images are created with. */
  predicate Admitted(family: string) { family == "windows" || family == "linux" }

  ghost predicate FamiliesAdmitted(fp: Fingerprint, table: seq<Stored>) {
    Admitted(fp.osFamily) && forall v :: v in table ==> Admitted(v.head.osFamily)
  }

  lemma AdmittedFamiliesAgree(fp: Fingerprint, table: seq<Stored>)
    requires FamiliesAdmitted(fp, table)
    ensures FamiliesAgree(fp, table)
  {
    hide BestTier, Fold, Lower;
    forall v | v in table && Wanted(fp, VersionWith(v.head, v.rules))
      ensures Lower(v.head.osFamily) == Lower(fp.osFamily)
    {
      SameFamily(v.head.osFamily, fp.osFamily);
    }
  }

  lemma SameFamily(a: string, b: string)
    requires EqualFold(a, b) && Admitted(a) && Admitted(b)
    ensures a == b
  {
    assert |Fold(a)| == |a| && |Fold(b)| == |b|;
  }

  /** End to end, for the families the program admits: the rows of the filtered query, in any order the database
      may choose, give what the whole table defines. */
  lemma StagedListIsTheTables(fp: Fingerprint, table: seq<Stored>, rows: seq<Row>, out: seq<Matched>)
    requires Increasing(table) && QueryResult(OfFamily(fp.osFamily, table), rows) && FamiliesAdmitted(fp, table)
    requires Indexed(Regroup(rows)) && Shows(Regroup(rows), Answer(fp, Candidates(Regroup(rows))), out)
    ensures out == Reference(fp, table)
  {
    hide Regroup, QueryResult, Answer, FamiliesAgree, FamiliesAdmitted, Indexed, Shows, OfFamily, Reference;
    AdmittedFamiliesAgree(fp, table);
    StagedListWhenFamiliesAgree(fp, table, rows, out);
  }
}
