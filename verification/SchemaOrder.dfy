/**
 When an example body can come out only one way. Sibling properties share one
 set of seen references, so what matters is whether two of them would follow
 the same reference for the first time.
 */
module SchemaOrder {
  import opened Basics
  import opened Schemas
  import opened SchemaShapes
  import Text

  // ----- every property on its own -----

  /** The outcome if every property were expanded from what was seen before its object, and the references
      followed on the way. */
  ghost function Canon(root: Json, schema: Json, seen: set<string>): (Json, set<string>)
    requires Known(root, schema)
    decreases Unseen(root, seen), schema, 3
  {
    hide RefsOf, Unseen;
    var found := Deref(root, schema, seen);
    if Ref(schema).Some? && found == (CUT, seen) then (Obj(map[]), {})
    else
      var p := CanonPlan(root, found.0, found.1);
      (p.0, p.1 + (found.1 - seen))
  }

  ghost function CanonPlan(root: Json, s: Json, seen: set<string>): (Json, set<string>)
    requires Known(root, s)
    decreases Unseen(root, seen), s, 2
  {
    hide RefsOf, Unseen, PlanOf;
    PlanIsSmaller(root, s);
    match PlanOf(s)
    case Literal(lit) => (lit, {})
    case Merged(subs) =>
      var c := CanonMerged(root, s, subs, seen);
      (Obj(c.0), c.1)
    case Fields(props) => (Obj(CanonValues(root, props, seen, s)), CanonAdds(root, props, seen, s))
    case Single(item) =>
      var c := Canon(root, item, seen);
      (Arr([c.0]), c.1)
  }

  ghost function CanonMerged(root: Json, s: Json, subs: seq<Json>, seen: set<string>): (map<string, Json>, set<string>)
    requires forall i :: 0 <= i < |subs| ==> Known(root, subs[i]) && (s decreases to subs[i])
    decreases Unseen(root, seen), s, 1
  {
    hide RefsOf, Unseen, Known, Merge;
    var m := Merge(root, subs, seen, s);
    var top := TopOf(root, s, seen, m);
    (CanonValues(root, m.0, m.1, top), CanonAdds(root, m.0, m.1, top) + (m.1 - seen))
  }

  /** The bound under which the properties of an allOf are expanded. */
  ghost function TopOf(root: Json, s: Json, seen: set<string>, m: (map<string, Json>, set<string>)): Json {
    if Unseen(root, m.1) == Unseen(root, seen) then s else Obj(m.0)
  }

  ghost function CanonField(root: Json, j: Json, seen: set<string>): (Json, set<string>)
    requires Known(root, j)
    decreases Unseen(root, seen), j, 4
  {
    if j.Obj? then Canon(root, j, seen) else (Null, {})
  }

  ghost function CanonValues(root: Json, props: map<string, Json>, seen: set<string>, top: Json): map<string, Json>
    requires forall k :: k in props ==> Known(root, props[k]) && (top decreases to props[k])
    decreases Unseen(root, seen), top, 0
  {
    map k | k in props :: CanonField(root, props[k], seen).0
  }

  ghost function CanonAdds(root: Json, props: map<string, Json>, seen: set<string>, top: Json): set<string>
    requires forall k :: k in props ==> Known(root, props[k]) && (top decreases to props[k])
    decreases Unseen(root, seen), top, 0
  {
    set k, r | k in props && r in CanonField(root, props[k], seen).1 :: r
  }

  /** Nowhere in the expansion would two properties of one object follow the same reference. */
  ghost predicate Apart(root: Json, schema: Json, seen: set<string>)
    requires Known(root, schema)
    decreases Unseen(root, seen), schema, 3
  {
    hide RefsOf, Unseen;
    var found := Deref(root, schema, seen);
    (Ref(schema).Some? && found == (CUT, seen)) || ApartPlan(root, found.0, found.1)
  }

  ghost predicate ApartPlan(root: Json, s: Json, seen: set<string>)
    requires Known(root, s)
    decreases Unseen(root, seen), s, 2
  {
    hide RefsOf, Unseen, PlanOf;
    PlanIsSmaller(root, s);
    match PlanOf(s)
    case Literal(_) => true
    case Merged(subs) => ApartMerged(root, s, subs, seen)
    case Fields(props) => ApartFields(root, props, seen, s)
    case Single(item) => Apart(root, item, seen)
  }

  ghost predicate ApartMerged(root: Json, s: Json, subs: seq<Json>, seen: set<string>)
    requires forall i :: 0 <= i < |subs| ==> Known(root, subs[i]) && (s decreases to subs[i])
    decreases Unseen(root, seen), s, 1
  {
    hide RefsOf, Unseen, Known, Merge;
    var m := Merge(root, subs, seen, s);
    ApartFields(root, m.0, m.1, TopOf(root, s, seen, m))
  }

  ghost predicate ApartFields(root: Json, props: map<string, Json>, seen: set<string>, top: Json)
    requires forall k :: k in props ==> Known(root, props[k]) && (top decreases to props[k])
    decreases Unseen(root, seen), top, 0
  {
    && (forall k :: k in props && props[k].Obj? ==> Apart(root, props[k], seen))
    && (forall j, k :: j in props && k in props && j != k ==>
          CanonField(root, props[j], seen).1 !! CanonField(root, props[k], seen).1)
  }

  // ----- references seen elsewhere do not matter -----

  lemma {:induction false} DerefFrame(root: Json, node: Json, seen: set<string>, extra: set<string>)
    requires Known(root, node) && (Deref(root, node, seen).1 - seen) !! extra
    ensures Deref(root, node, seen + extra) == (Deref(root, node, seen).0, Deref(root, node, seen).1 + extra)
    decreases Unseen(root, seen)
  {
    hide RefsOf, Unseen, Walk, Known, Target;
    if Ref(node).Some? && Ref(node).value !in seen {
      var ref := Ref(node).value;
      Hop(root, node, seen);
      assert ref in Deref(root, node, seen).1;
      DerefFrame(root, Target(root, ref), seen + {ref}, extra);
      assert seen + extra + {ref} == seen + {ref} + extra;
    }
  }

  lemma PartFrame(root: Json, sub: Json, seen: set<string>, extra: set<string>)
    requires Known(root, sub) && (Part(root, sub, seen).1 - seen) !! extra
    ensures Part(root, sub, seen + extra) == (Part(root, sub, seen).0, Part(root, sub, seen).1 + extra)
  {
    hide RefsOf, Unseen, Known, Deref;
    if sub.Obj? {
      DerefFrame(root, sub, seen, extra);
    }
  }

  lemma {:induction false} MergeFrame(root: Json, subs: seq<Json>, seen: set<string>, top: Json, extra: set<string>)
    requires forall i :: 0 <= i < |subs| ==> Known(root, subs[i]) && (top decreases to subs[i])
    requires (Merge(root, subs, seen, top).1 - seen) !! extra
    ensures Merge(root, subs, seen + extra, top) == (Merge(root, subs, seen, top).0, Merge(root, subs, seen, top).1 + extra)
    decreases |subs|
  {
    hide RefsOf, Unseen, Known, Part;
    if subs != [] {
      var front := subs[..|subs| - 1];
      var before := Merge(root, front, seen, top);
      var part := Part(root, subs[|subs| - 1], before.1);
      assert before.1 <= part.1;
      MergeFrame(root, front, seen, top, extra);
      PartFrame(root, subs[|subs| - 1], before.1, extra);
    }
  }

  lemma SameGain(seen: set<string>, more: set<string>, extra: set<string>)
    requires seen <= more && (more - seen) !! extra
    ensures more + extra - (seen + extra) == more - seen
    ensures more + extra == seen + extra ==> more == seen
  {
    if more + extra == seen + extra {
      assert more - seen == {};
    }
  }

  /** References that a schema's expansion does not follow may have been seen or not: nothing changes. */
  lemma {:induction false} CanonFrame(root: Json, schema: Json, seen: set<string>, extra: set<string>)
    requires Known(root, schema) && Canon(root, schema, seen).1 !! extra
    ensures Canon(root, schema, seen + extra) == Canon(root, schema, seen)
    ensures Apart(root, schema, seen) ==> Apart(root, schema, seen + extra)
    decreases Unseen(root, seen), schema, 3
  {
    hide RefsOf, Unseen, Known, Deref, CanonPlan, ApartPlan;
    var found := Deref(root, schema, seen);
    if Ref(schema).Some? && found == (CUT, seen) {
      DerefFrame(root, schema, seen, extra);
    } else {
      var p := CanonPlan(root, found.0, found.1);
      assert Canon(root, schema, seen).1 == p.1 + (found.1 - seen);
      DerefFrame(root, schema, seen, extra);
      CanonPlanFrame(root, found.0, found.1, extra);
      SameGain(seen, found.1, extra);
    }
  }

  lemma {:induction false} CanonPlanFrame(root: Json, s: Json, seen: set<string>, extra: set<string>)
    requires Known(root, s) && CanonPlan(root, s, seen).1 !! extra
    ensures CanonPlan(root, s, seen + extra) == CanonPlan(root, s, seen)
    ensures ApartPlan(root, s, seen) ==> ApartPlan(root, s, seen + extra)
    decreases Unseen(root, seen), s, 2
  {
    hide RefsOf, Unseen, Known, PlanOf, CanonMerged, ApartMerged, CanonValues, CanonAdds, ApartFields, Canon, Apart;
    PlanIsSmaller(root, s);
    match PlanOf(s)
    case Literal(_) =>
    case Merged(subs) => MergedFrame(root, s, subs, seen, extra);
    case Fields(props) => FieldsFrame(root, props, seen, extra, s, s);
    case Single(item) => CanonFrame(root, item, seen, extra);
  }

  lemma {:induction false} MergedFrame(root: Json, s: Json, subs: seq<Json>, seen: set<string>, extra: set<string>)
    requires forall i :: 0 <= i < |subs| ==> Known(root, subs[i]) && (s decreases to subs[i])
    requires CanonMerged(root, s, subs, seen).1 !! extra
    ensures CanonMerged(root, s, subs, seen + extra) == CanonMerged(root, s, subs, seen)
    ensures ApartMerged(root, s, subs, seen) ==> ApartMerged(root, s, subs, seen + extra)
    decreases Unseen(root, seen), s, 1
  {
    hide RefsOf, Unseen, Known, Merge, CanonValues, CanonAdds, ApartFields;
    var m := Merge(root, subs, seen, s);
    MergeFrame(root, subs, seen, s, extra);
    SameGain(seen, m.1, extra);
    var n := Merge(root, subs, seen + extra, s);
    FieldsFrame(root, m.0, m.1, extra, TopOf(root, s, seen, m), TopOf(root, s, seen + extra, n));
  }

  lemma {:induction false} FieldsFrame(root: Json, props: map<string, Json>, seen: set<string>, extra: set<string>, top: Json, other: Json)
    requires forall k :: k in props ==> Known(root, props[k]) && (top decreases to props[k]) && (other decreases to props[k])
    requires CanonAdds(root, props, seen, top) !! extra
    ensures CanonValues(root, props, seen + extra, other) == CanonValues(root, props, seen, top)
    ensures CanonAdds(root, props, seen + extra, other) == CanonAdds(root, props, seen, top)
    ensures ApartFields(root, props, seen, top) ==> ApartFields(root, props, seen + extra, other)
    decreases Unseen(root, seen), top, 0
  {
    hide RefsOf, Unseen, Known, Canon, Apart;
    forall k | k in props
      ensures CanonField(root, props[k], seen + extra) == CanonField(root, props[k], seen)
      ensures props[k].Obj? && Apart(root, props[k], seen) ==> Apart(root, props[k], seen + extra)
    {
      assert CanonField(root, props[k], seen).1 <= CanonAdds(root, props, seen, top);
      if props[k].Obj? {
        CanonFrame(root, props[k], seen, extra);
      }
    }
  }

  // ----- every outcome is the canonical one -----

  /** Every outcome of a schema whose properties stay apart is the canonical one, in whatever order they are walked. */
  lemma {:induction false} CanIsCanon(root: Json, schema: Json, seen: set<string>, v: Json, after: set<string>)
    requires Known(root, schema) && Apart(root, schema, seen) && Can(root, schema, seen, v, after)
    ensures v == Canon(root, schema, seen).0 && after == seen + Canon(root, schema, seen).1
    decreases Unseen(root, seen), schema, 2, 0
  {
    hide RefsOf, Unseen, Known, Deref, CanonPlan, ApartPlan, CanPlan;
    var found := Deref(root, schema, seen);
    if !(Ref(schema).Some? && found == (CUT, seen)) {
      CanPlanIsCanon(root, found.0, found.1, v, after);
    }
  }

  lemma {:induction false} CanPlanIsCanon(root: Json, s: Json, seen: set<string>, v: Json, after: set<string>)
    requires Known(root, s) && ApartPlan(root, s, seen) && CanPlan(root, s, seen, v, after)
    ensures v == CanonPlan(root, s, seen).0 && after == seen + CanonPlan(root, s, seen).1
    decreases Unseen(root, seen), s, 1, 0
  {
    hide RefsOf, Unseen, Known, PlanOf, Merge, CanonValues, CanonAdds, ApartFields, Canon, Apart, Can, CanFields;
    PlanIsSmaller(root, s);
    match PlanOf(s)
    case Literal(_) =>
    case Merged(subs) =>
      var m := Merge(root, subs, seen, s);
      var top := if Unseen(root, m.1) == Unseen(root, seen) then s else Obj(m.0);
      CanFieldsAreCanon(root, m.0, m.1, v.fields, after, top);
    case Fields(props) => CanFieldsAreCanon(root, props, seen, v.fields, after, s);
    case Single(item) => CanIsCanon(root, item, seen, v.items[0], after);
  }

  lemma {:induction false} CanFieldsAreCanon(root: Json, props: map<string, Json>, seen: set<string>, out: map<string, Json>,
                                             after: set<string>, top: Json)
    requires forall k :: k in props ==> Known(root, props[k]) && (top decreases to props[k])
    requires ApartFields(root, props, seen, top) && CanFields(root, props, seen, out, after, top)
    ensures out == CanonValues(root, props, seen, top) && after == seen + CanonAdds(root, props, seen, top)
    decreases Unseen(root, seen), top, 0, |props|
  {
    hide RefsOf, Unseen, Known, Canon, Apart, Can, CanFields, ApartFields, CanonAdds, CanonValues, CanonField;
    if props == map[] {
      NoFieldsOnly(root, seen, out, after, top);
      NoCanonFields(root, seen, top);
    } else {
      var k, mid := FirstField(root, props, seen, out, after, top);
      UnseenShrinks(root, seen, mid);
      ApartField(root, props, k, seen, top);
      FieldIs(root, props[k], seen);
      if props[k].Obj? {
        CanIsCanon(root, props[k], seen, out[k], mid);
      }
      RestApart(root, props, k, seen, top);
      FieldsFrame(root, props - {k}, seen, CanonField(root, props[k], seen).1, top, top);
      CanFieldsAreCanon(root, props - {k}, mid, out - {k}, after, top);
      RestValues(root, props, k, seen, out, top);
    }
  }

  lemma FieldIs(root: Json, j: Json, seen: set<string>)
    requires Known(root, j)
    ensures CanonField(root, j, seen) == if j.Obj? then Canon(root, j, seen) else (Null, {})
  {
    hide Canon, RefsOf;
  }

  lemma FirstField(root: Json, props: map<string, Json>, seen: set<string>, out: map<string, Json>, after: set<string>, top: Json)
    returns (k: string, mid: set<string>)
    requires forall x :: x in props ==> Known(root, props[x]) && (top decreases to props[x])
    requires CanFields(root, props, seen, out, after, top) && props != map[]
    ensures k in props && k in out && seen <= mid
    ensures if props[k].Obj? then Can(root, props[k], seen, out[k], mid) else out[k] == Null && mid == seen
    ensures CanFields(root, props - {k}, mid, out - {k}, after, top)
  {
    hide RefsOf, Unseen, Known, Can;
    k, mid :| && k in props && k in out && seen <= mid
      && (if props[k].Obj? then Can(root, props[k], seen, out[k], mid) else out[k] == Null && mid == seen)
      && (UnseenShrinks(root, seen, mid); CanFields(root, props - {k}, mid, out - {k}, after, top));
  }

  lemma NoCanonFields(root: Json, seen: set<string>, top: Json)
    ensures CanonValues(root, map[], seen, top) == map[] && CanonAdds(root, map[], seen, top) == {}
  {
  }

  lemma ApartField(root: Json, props: map<string, Json>, k: string, seen: set<string>, top: Json)
    requires forall x :: x in props ==> Known(root, props[x]) && (top decreases to props[x])
    requires k in props && ApartFields(root, props, seen, top)
    ensures props[k].Obj? ==> Apart(root, props[k], seen)
  {
    hide Apart, RefsOf;
  }

  lemma RestApart(root: Json, props: map<string, Json>, k: string, seen: set<string>, top: Json)
    requires forall x :: x in props ==> Known(root, props[x]) && (top decreases to props[x])
    requires k in props && ApartFields(root, props, seen, top)
    ensures ApartFields(root, props - {k}, seen, top)
    ensures CanonAdds(root, props - {k}, seen, top) !! CanonField(root, props[k], seen).1
    ensures CanonAdds(root, props, seen, top) == CanonAdds(root, props - {k}, seen, top) + CanonField(root, props[k], seen).1
  {
    hide RefsOf, Unseen, Known, Apart, CanonField;
    var rest := props - {k};
    assert forall x :: x in props <==> x in rest || x == k;
  }

  lemma RestValues(root: Json, props: map<string, Json>, k: string, seen: set<string>, out: map<string, Json>, top: Json)
    requires forall x :: x in props ==> Known(root, props[x]) && (top decreases to props[x])
    requires k in props && k in out && out[k] == CanonField(root, props[k], seen).0
    requires out - {k} == CanonValues(root, props - {k}, seen, top)
    ensures out == CanonValues(root, props, seen, top)
  {
    hide RefsOf, Unseen, Known, CanonField;
    var rest := props - {k};
    assert forall x :: x in props <==> x in rest || x == k;
    assert forall x :: x in out <==> x in out - {k} || x == k;
    forall x | x in props && x != k
      ensures x in out && out[x] == CanonField(root, props[x], seen).0
    {
      assert (out - {k})[x] == CanonField(root, rest[x], seen).0;
    }
  }

  /** A body whose properties stay apart comes out the same however its maps are walked. */
  lemma ApartBodiesAreCanonical(root: Json, schema: Json, seen: set<string>, v: Json, a: set<string>, w: Json, b: set<string>)
    requires Known(root, schema) && Apart(root, schema, seen)
    requires Can(root, schema, seen, v, a) && Can(root, schema, seen, w, b)
    ensures v == w && a == b
  {
    hide Can, Apart, Canon, RefsOf;
    CanIsCanon(root, schema, seen, v, a);
    CanIsCanon(root, schema, seen, w, b);
  }

  // ----- no references at all -----

  /** No reference anywhere inside. */
  ghost predicate RefFree(j: Json) { Known(Null, j) }

  lemma RefFreeHasNone(root: Json, j: Json, seen: set<string>)
    requires RefFree(j) && Known(root, j)
    ensures Ref(j).None? && Deref(root, j, seen) == (j, seen)
  {
    hide Deref, Unseen;
    KnownField(Null, j, "$ref");
  }

  lemma {:induction false} RefFreeMerge(root: Json, subs: seq<Json>, seen: set<string>, top: Json)
    requires forall i :: 0 <= i < |subs| ==> RefFree(subs[i]) && Known(root, subs[i]) && (top decreases to subs[i])
    ensures var m := Merge(root, subs, seen, top); m.1 == seen && forall k :: k in m.0 ==> RefFree(m.0[k])
    decreases |subs|
  {
    hide RefsOf, Unseen, Known;
    if subs != [] {
      var last := subs[|subs| - 1];
      RefFreeMerge(root, subs[..|subs| - 1], seen, top);
      RefFreeHasNone(root, last, seen);
      KnownProperties(Null, last);
    }
  }

  /** A schema without references stays apart: RefFreeBodiesAreCanonical is a special case. */
  lemma {:induction false} RefFreeApart(root: Json, schema: Json, seen: set<string>)
    requires Known(root, schema) && RefFree(schema)
    ensures Apart(root, schema, seen) && Canon(root, schema, seen).1 == {}
    decreases schema, 1
  {
    hide RefsOf, Unseen, Known, Deref, PlanOf, Merge, CanonValues, CanonAdds, ApartFields;
    RefFreeHasNone(root, schema, seen);
    PlanIsSmaller(root, schema);
    PlanIsSmaller(Null, schema);
    match PlanOf(schema)
    case Literal(_) =>
    case Merged(subs) =>
      RefFreeMerge(root, subs, seen, schema);
      var m := Merge(root, subs, seen, schema);
      assert TopOf(root, schema, seen, m) == schema && m.1 - seen == {};
      RefFreeFields(root, m.0, seen, schema);
      assert CanonMerged(root, schema, subs, seen).1 == {} && ApartMerged(root, schema, subs, seen);
    case Fields(props) => RefFreeFields(root, props, seen, schema);
    case Single(item) => RefFreeApart(root, item, seen);
  }

  lemma {:induction false} RefFreeFields(root: Json, props: map<string, Json>, seen: set<string>, top: Json)
    requires forall k :: k in props ==> RefFree(props[k]) && Known(root, props[k]) && (top decreases to props[k])
    ensures ApartFields(root, props, seen, top) && CanonAdds(root, props, seen, top) == {}
    decreases top, 0
  {
    hide RefsOf, Unseen, Known, Canon, Apart, RefFree;
    forall k | k in props
      ensures CanonField(root, props[k], seen).1 == {} && (props[k].Obj? ==> Apart(root, props[k], seen))
    {
      if props[k].Obj? {
        RefFreeApart(root, props[k], seen);
      }
    }
  }

  lemma RefFreeBodiesAreCanonical(root: Json, schema: Json, v: Json, a: set<string>, w: Json, b: set<string>)
    requires Known(root, schema) && RefFree(schema)
    requires Can(root, schema, {}, v, a) && Can(root, schema, {}, w, b)
    ensures v == w
  {
    hide Can, Apart, Canon, RefsOf;
    RefFreeApart(root, schema, {});
    ApartBodiesAreCanonical(root, schema, {}, v, a, w, b);
  }

  // ----- every schema has an outcome -----

  lemma {:induction false} CanExists(root: Json, schema: Json, seen: set<string>) returns (v: Json, after: set<string>)
    requires Known(root, schema)
    ensures Can(root, schema, seen, v, after) && seen <= after
    decreases Unseen(root, seen), schema, 2, 0
  {
    hide RefsOf, Unseen, Known, Deref, CanPlan;
    var found := Deref(root, schema, seen);
    if Ref(schema).Some? && found == (CUT, seen) {
      v, after := Obj(map[]), seen;
    } else {
      v, after := CanPlanExists(root, found.0, found.1);
    }
  }

  lemma {:induction false} CanPlanExists(root: Json, s: Json, seen: set<string>) returns (v: Json, after: set<string>)
    requires Known(root, s)
    ensures CanPlan(root, s, seen, v, after) && seen <= after
    decreases Unseen(root, seen), s, 1, 0
  {
    hide RefsOf, Unseen, Known, PlanOf, Merge, Can, CanFields;
    PlanIsSmaller(root, s);
    match PlanOf(s)
    case Literal(lit) => v, after := lit, seen;
    case Merged(subs) =>
      var m := Merge(root, subs, seen, s);
      var top := if Unseen(root, m.1) == Unseen(root, seen) then s else Obj(m.0);
      var out, last := CanFieldsExist(root, m.0, m.1, top);
      v, after := Obj(out), last;
    case Fields(props) =>
      var out, last := CanFieldsExist(root, props, seen, s);
      v, after := Obj(out), last;
    case Single(item) =>
      var one, last := CanExists(root, item, seen);
      v, after := Arr([one]), last;
  }

  lemma {:induction false} CanFieldsExist(root: Json, props: map<string, Json>, seen: set<string>, top: Json)
    returns (out: map<string, Json>, after: set<string>)
    requires forall k :: k in props ==> Known(root, props[k]) && (top decreases to props[k])
    ensures CanFields(root, props, seen, out, after, top) && seen <= after
    decreases Unseen(root, seen), top, 0, |props|
  {
    hide RefsOf, Unseen, Known, Can, CanFields;
    if props == map[] {
      out, after := map[], seen;
      EmptyFields(root, seen, top);
    } else {
      var k :| k in props;
      var v, mid := Null, seen;
      if props[k].Obj? {
        v, mid := CanExists(root, props[k], seen);
      }
      UnseenShrinks(root, seen, mid);
      var rest, last := CanFieldsExist(root, props - {k}, mid, top);
      FieldStep(root, props, k, seen, mid, v, rest, last, top);
      out, after := rest[k := v], last;
    }
  }

  lemma EmptyFields(root: Json, seen: set<string>, top: Json)
    ensures CanFields(root, map[], seen, map[], seen, top)
  {
  }

  // ----- a reference shared by siblings -----

  function RefTo(ref: string): Json { Obj(map["$ref" := Str(ref)]) }

  lemma RefToMeaning(ref: string)
    ensures RefTo(ref).Obj? && Ref(RefTo(ref)) == Some(ref)
  {
  }

  /** The first use of a reference follows it. */
  lemma FirstUse(root: Json, ref: string, seen: set<string>, v: Json, after: set<string>)
    requires Known(root, RefTo(ref)) && ref !in seen && Can(root, RefTo(ref), seen, v, after)
    ensures ref in after && seen <= after && ref in Canon(root, RefTo(ref), seen).1
  {
    hide RefsOf, Unseen, Known, Walk, Target, RefTo, CanPlan, CanonPlan;
    RefToMeaning(ref);
    Hop(root, RefTo(ref), seen);
    var found := Deref(root, RefTo(ref), seen);
    assert found == Deref(root, Target(root, ref), seen + {ref});
    assert ref in found.1;
    CanPlanFits(root, found.0, found.1, v, after);
  }

  /** A later use is cut. */
  lemma LaterUse(root: Json, ref: string, seen: set<string>)
    requires Known(root, RefTo(ref)) && ref in seen
    ensures Can(root, RefTo(ref), seen, Obj(map[]), seen)
  {
    hide RefsOf, Unseen, Known, Walk, Target, RefTo, CanPlan;
    RefToMeaning(ref);
    assert Deref(root, RefTo(ref), seen) == (CUT, seen);
  }

  /** Of two properties that refer to the same schema, the one walked first is filled in and the other is left as
      an empty object, whatever the reference leads to and whatever other properties there are. */
  lemma FirstWalkedWins(root: Json, props: map<string, Json>, top: Json, a: string, b: string, ref: string, seen: set<string>,
                        v: Json, after: set<string>, rest: map<string, Json>, last: set<string>)
    requires forall k :: k in props ==> Known(root, props[k]) && (top decreases to props[k])
    requires a in props && b in props && a != b && props[a] == RefTo(ref) && props[b] == RefTo(ref) && ref !in seen
    requires Can(root, RefTo(ref), seen, v, after) && CanFields(root, props - {a, b}, after, rest, last, top)
    ensures CanFields(root, props, seen, rest[b := Obj(map[])][a := v], last, top)
  {
    hide RefsOf, Unseen, Known, Can, CanFields, RefTo;
    RefToMeaning(ref);
    FirstUse(root, ref, seen, v, after);
    LaterUse(root, ref, after);
    assert (props - {a}) - {b} == props - {a, b};
    FieldStep(root, props - {a}, b, after, after, Obj(map[]), rest, last, top);
    FieldStep(root, props, a, seen, after, v, rest[b := Obj(map[])], last, top);
  }

  /** A schema, without a reference of its own, that opens an object: its own properties or those of an allOf. */
  ghost predicate Opens(root: Json, s: Json, seen: set<string>, props: map<string, Json>, at: set<string>, top: Json)
    requires Known(root, s)
  {
    hide RefsOf, Unseen, PlanOf;
    PlanIsSmaller(root, s);
    && Ref(s).None?
    && match PlanOf(s)
       case Fields(own) => props == own && at == seen && top == s
       case Merged(subs) => var m := Merge(root, subs, seen, s); props == m.0 && at == m.1 && top == TopOf(root, s, seen, m)
       case _ => false
  }

  lemma OpensBelow(root: Json, s: Json, seen: set<string>, props: map<string, Json>, at: set<string>, top: Json)
    requires Known(root, s) && Opens(root, s, seen, props, at, top)
    ensures seen <= at && forall k :: k in props ==> Known(root, props[k]) && (top decreases to props[k])
  {
    hide RefsOf, Unseen, PlanOf, Known, Merge;
    PlanIsSmaller(root, s);
  }

  lemma OpensCan(root: Json, s: Json, seen: set<string>, props: map<string, Json>, at: set<string>, top: Json, out: map<string, Json>,
                 last: set<string>)
    requires Known(root, s) && Opens(root, s, seen, props, at, top)
    requires forall k :: k in props ==> Known(root, props[k]) && (top decreases to props[k])
    requires CanFields(root, props, at, out, last, top)
    ensures Can(root, s, seen, Obj(out), last)
  {
    hide RefsOf, Unseen, PlanOf, Known, Merge, CanFields;
    PlanIsSmaller(root, s);
    assert CanPlan(root, s, seen, Obj(out), last);
  }

  lemma OpensApart(root: Json, s: Json, seen: set<string>, props: map<string, Json>, at: set<string>, top: Json)
    requires Known(root, s) && Opens(root, s, seen, props, at, top)
    requires forall k :: k in props ==> Known(root, props[k]) && (top decreases to props[k])
    ensures Apart(root, s, seen) <==> ApartFields(root, props, at, top)
  {
    hide RefsOf, Unseen, PlanOf, Known, Merge, ApartFields;
    PlanIsSmaller(root, s);
    if PlanOf(s).Merged? {
      assert ApartMerged(root, s, PlanOf(s).subs, seen) <==> ApartFields(root, props, at, top);
    }
    assert ApartPlan(root, s, seen) <==> ApartFields(root, props, at, top);
  }

  /**
   Two properties, whatever they hold: walked first, a comes out as x and b as
   what is left to it; walked second, the other way round. If either outcome
   depends on the other property having been there before, as when a reference
   is shared somewhere below both, the same spec gives two different bodies.
   */
  lemma SiblingsShowOrder(root: Json, s: Json, seen: set<string>, props: map<string, Json>, at: set<string>, top: Json, a: string, b: string)
    returns (x: Json, y: Json, p: set<string>, q: set<string>)
    requires Known(root, s) && Opens(root, s, seen, props, at, top)
    requires forall k :: k in props ==> Known(root, props[k]) && (top decreases to props[k])
    requires a in props && b in props && a != b && props[a].Obj? && props[b].Obj?
    ensures Can(root, s, seen, x, p) && Can(root, s, seen, y, q) && x.Obj? && y.Obj?
    ensures a in x.fields && b in x.fields && a in y.fields && b in y.fields
    ensures exists m :: Can(root, props[a], at, x.fields[a], m) && exists n :: Can(root, props[b], m, x.fields[b], n)
    ensures exists m :: Can(root, props[b], at, y.fields[b], m) && exists n :: Can(root, props[a], m, y.fields[a], n)
  {
    hide RefsOf, Unseen, Known, Can, CanFields, Opens;
    var out, last := WalkedFirst(root, props, at, top, a, b);
    x, p := Obj(out), last;
    OpensCan(root, s, seen, props, at, top, out, last);
    out, last := WalkedFirst(root, props, at, top, b, a);
    y, q := Obj(out), last;
    OpensCan(root, s, seen, props, at, top, out, last);
  }

  lemma WalkedFirst(root: Json, props: map<string, Json>, at: set<string>, top: Json, a: string, b: string)
    returns (out: map<string, Json>, last: set<string>)
    requires forall k :: k in props ==> Known(root, props[k]) && (top decreases to props[k])
    requires a in props && b in props && a != b && props[a].Obj? && props[b].Obj?
    ensures CanFields(root, props, at, out, last, top) && a in out && b in out
    ensures exists m :: Can(root, props[a], at, out[a], m) && exists n :: Can(root, props[b], m, out[b], n)
  {
    hide RefsOf, Unseen, Known, Can, CanFields;
    var v, m := CanExists(root, props[a], at);
    var u, n := CanExists(root, props[b], m);
    var rest;
    rest, last := CanFieldsExist(root, props - {a, b}, n, top);
    assert (props - {a}) - {b} == props - {a, b};
    FieldStep(root, props - {a}, b, m, n, u, rest, last, top);
    FieldStep(root, props, a, at, m, v, rest[b := u], last, top);
    out := rest[b := u][a := v];
  }

  /**
   Two properties of one object, its own or merged by an allOf, that refer to
   the same schema: two bodies come out, equal exactly when the reference
   expands to an empty object; and such a schema is not apart.
   */
  lemma BodiesDependOnOrder(root: Json, s: Json, seen: set<string>, props: map<string, Json>, at: set<string>, top: Json,
                            a: string, b: string, ref: string, v: Json, after: set<string>)
    returns (x: Json, y: Json, last: set<string>)
    requires Known(root, s) && Opens(root, s, seen, props, at, top) && a in props && b in props && a != b
    requires props[a] == RefTo(ref) && props[b] == RefTo(ref) && ref !in at && Known(root, RefTo(ref))
    requires Can(root, RefTo(ref), at, v, after)
    ensures Can(root, s, seen, x, last) && Can(root, s, seen, y, last)
    ensures x.Obj? && y.Obj? && a in x.fields && b in x.fields && a in y.fields && b in y.fields
    ensures x.fields[a] == v && x.fields[b] == Obj(map[]) && y.fields[a] == Obj(map[]) && y.fields[b] == v
    ensures x == y <==> v == Obj(map[])
    ensures !Apart(root, s, seen)
  {
    hide RefsOf, Unseen, Known, RefTo, Can, CanFields, ApartFields, Opens, Apart;
    OpensBelow(root, s, seen, props, at, top);
    var rest, end := CanFieldsExist(root, props - {a, b}, after, top);
    FirstWalkedWins(root, props, top, a, b, ref, at, v, after, rest, end);
    assert {a, b} == {b, a};
    FirstWalkedWins(root, props, top, b, a, ref, at, v, after, rest, end);
    SharedIsNotApart(root, props, top, a, b, ref, at, v, after);
    OpensApart(root, s, seen, props, at, top);
    var one, two := rest[b := Obj(map[])][a := v], rest[a := Obj(map[])][b := v];
    OpensCan(root, s, seen, props, at, top, one, end);
    OpensCan(root, s, seen, props, at, top, two, end);
    x, y, last := Obj(one), Obj(two), end;
    assert v == Obj(map[]) ==> one == two;
  }

  lemma SharedIsNotApart(root: Json, props: map<string, Json>, top: Json, a: string, b: string, ref: string, seen: set<string>,
                         v: Json, after: set<string>)
    requires forall k :: k in props ==> Known(root, props[k]) && (top decreases to props[k])
    requires a in props && b in props && a != b && props[a] == RefTo(ref) && props[b] == RefTo(ref) && ref !in seen
    requires Can(root, RefTo(ref), seen, v, after)
    ensures !ApartFields(root, props, seen, top)
  {
    hide RefsOf, Unseen, Known, Can, RefTo, Canon, Apart;
    RefToMeaning(ref);
    FirstUse(root, ref, seen, v, after);
    assert ref in CanonField(root, props[a], seen).1 && ref in CanonField(root, props[b], seen).1;
  }

  /** A schema may refer to itself in several properties: they are all cut, so its body is canonical. */
  lemma SelfReferenceStaysApart(root: Json, ref: string, seen: set<string>)
    requires Known(root, RefTo(ref)) && ref !in seen && Ref(Target(root, ref)).None? && PlanOf(Target(root, ref)).Fields?
    requires var props := PlanOf(Target(root, ref)).props; forall k :: k in props ==> props[k] == RefTo(ref)
    ensures Apart(root, RefTo(ref), seen)
  {
    hide RefsOf, Unseen, PlanOf, Walk, Target, Known, RefTo, Apart;
    RefToMeaning(ref);
    Hop(root, RefTo(ref), seen);
    var t := Target(root, ref);
    PlanIsSmaller(root, t);
    assert Deref(root, RefTo(ref), seen) == (t, seen + {ref});
    var props := PlanOf(t).props;
    forall k | k in props
      ensures Apart(root, props[k], seen + {ref}) && CanonField(root, props[k], seen + {ref}).1 == {}
    {
      CutIsApart(root, ref, seen + {ref});
    }
    assert ApartPlan(root, t, seen + {ref});
    ApartIfPlan(root, RefTo(ref), seen);
  }

  lemma CutIsApart(root: Json, ref: string, seen: set<string>)
    requires Known(root, RefTo(ref)) && ref in seen
    ensures Apart(root, RefTo(ref), seen) && Canon(root, RefTo(ref), seen).1 == {}
  {
    hide RefsOf, Unseen, Known, Target, RefTo, CanonPlan, ApartPlan;
    RefToMeaning(ref);
    assert Deref(root, RefTo(ref), seen) == (CUT, seen);
  }

  lemma ApartIfPlan(root: Json, schema: Json, seen: set<string>)
    requires Known(root, schema) && ApartPlan(root, Deref(root, schema, seen).0, Deref(root, schema, seen).1)
    ensures Apart(root, schema, seen)
  {
    hide RefsOf, Unseen, Known, Deref, ApartPlan;
  }

  /** A document with such a schema. */
  function TwoUses(): Json {
    Obj(map["A" := Obj(map["type" := Str("string")]),
            "S" := Obj(map["type" := Str("object"), "properties" := Obj(map["x" := RefTo("#/A"), "y" := RefTo("#/A")])])])
  }

  lemma TargetOfA()
    ensures Target(TwoUses(), "#/A") == Obj(map["type" := Str("string")])
  {
    assert "#/A"[2..] == "A";
    Text.SplitOne("A", "", '/');
    assert Pointer("#/A") == ["A"];
    assert ["A"][1..] == [];
  }

  lemma PlanOfTwoUses()
    ensures var s := Field(TwoUses(), "S");
            Ref(s).None? && PlanOf(s) == Fields(map["x" := RefTo("#/A"), "y" := RefTo("#/A")])
    ensures var a := Obj(map["type" := Str("string")]);
            Ref(a).None? && PlanOf(a) == Literal(Str("<string>"))
  {
  }

  /** The same spec, two different bodies. */
  lemma TwoBodies() returns (x: Json, y: Json, last: set<string>)
    ensures var root := TwoUses();
            && Known(root, Field(root, "S"))
            && Can(root, Field(root, "S"), {}, x, last) && Can(root, Field(root, "S"), {}, y, last) && x != y
  {
    hide RefsOf, PlanOf, Target, Can, RefTo, TwoUses, CanPlan;
    var root := TwoUses();
    var s := Field(root, "S");
    TargetOfA();
    PlanOfTwoUses();
    KnownField(root, root, "S");
    PlanIsSmaller(root, s);
    assert PlanOf(s).props["x"] == RefTo("#/A");
    UseOfLiteral(root, "#/A", Str("<string>"));
    x, y, last := BodiesDependOnOrder(root, s, {}, PlanOf(s).props, {}, s, "x", "y", "#/A", Str("<string>"), {"#/A"});
  }

  lemma UseOfLiteral(root: Json, ref: string, lit: Json)
    requires Known(root, RefTo(ref)) && Ref(Target(root, ref)).None? && PlanOf(Target(root, ref)) == Literal(lit)
    ensures Can(root, RefTo(ref), {}, lit, {ref})
  {
    hide RefsOf, Unseen, PlanOf, Walk, Target, Known;
    Hop(root, RefTo(ref), {});
    assert Deref(root, RefTo(ref), {}) == Deref(root, Target(root, ref), {} + {ref});
  }
}
