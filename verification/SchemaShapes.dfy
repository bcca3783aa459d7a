/** Chains of references, with and without the guard against cycles, and the shape of every expansion of a schema. */
module SchemaShapes {
  import opened Basics
  import opened Schemas

  // ----- chains of references -----

  /** The node after n references, stopping early where there is none to follow. */
  function Follow(root: Json, node: Json, n: nat): Json
    decreases n
  {
    if n == 0 || Ref(node).None? then node else Follow(root, Target(root, Ref(node).value), n - 1)
  }

  ghost predicate Ends(root: Json, node: Json) { exists n: nat :: Ref(Follow(root, node, n)).None? }

  lemma {:induction false} FollowAdd(root: Json, node: Json, a: nat, b: nat)
    ensures Follow(root, node, a + b) == Follow(root, Follow(root, node, a), b)
    decreases a
  {
    hide Ref, Target;
    if a > 0 && Ref(node).Some? {
      FollowAdd(root, Target(root, Ref(node).value), a - 1, b);
    }
  }

  /** A chain that comes back to where it was has no end. */
  lemma {:induction false} LoopNeverEnds(root: Json, node: Json, p: nat, n: nat)
    requires p > 0 && Follow(root, node, p) == node
    requires forall k: nat :: k < p ==> Ref(Follow(root, node, k)).Some?
    ensures Ref(Follow(root, node, n)).Some?
  {
    hide Ref, Target;
    if n >= p {
      FollowAdd(root, node, p, n - p);
      LoopNeverEnds(root, node, p, n - p);
    }
  }

  /** The references met in the first j steps of the chain from node. */
  ghost predicate SeenOnChain(root: Json, node: Json, j: nat, seen: set<string>) {
    && (forall k: nat :: k < j ==> Ref(Follow(root, node, k)).Some? && Ref(Follow(root, node, k)).value in seen)
    && (forall r :: r in seen ==> exists k: nat :: k < j && Ref(Follow(root, node, k)) == Some(r))
  }

  lemma RepeatNeverEnds(root: Json, node: Json, i: nat, j: nat)
    requires i < j && Ref(Follow(root, node, i)).Some? && Ref(Follow(root, node, i)) == Ref(Follow(root, node, j))
    requires forall k: nat :: k < j ==> Ref(Follow(root, node, k)).Some?
    ensures !Ends(root, node)
  {
    hide Ref, Target;
    var x := Follow(root, node, i + 1);
    FollowAdd(root, node, i, 1);
    FollowAdd(root, node, j, 1);
    FollowAdd(root, node, i + 1, j - i);
    assert Follow(root, x, j - i) == x;
    forall k: nat | k < j - i
      ensures Ref(Follow(root, x, k)).Some?
    {
      FollowAdd(root, node, i + 1, k);
    }
    forall n: nat
      ensures Ref(Follow(root, node, n)).Some?
    {
      if n > j {
        FollowAdd(root, node, i + 1, n - i - 1);
        LoopNeverEnds(root, x, j - i, n - i - 1);
      }
    }
  }

  lemma {:induction false} DerefOnChain(root: Json, node: Json, j: nat, seen: set<string>)
    requires Known(root, node) && SeenOnChain(root, node, j, seen) && Known(root, Follow(root, node, j))
    ensures var r := Deref(root, Follow(root, node, j), seen).0;
            (r == CUT && !Ends(root, node)) || (exists n: nat :: Ref(Follow(root, node, n)).None? && r == Follow(root, node, n))
    decreases Unseen(root, seen)
  {
    hide RefsOf, Unseen, Target, Ref, Follow, Known, Walk;
    var cur := Follow(root, node, j);
    if Ref(cur).Some? {
      var ref := Ref(cur).value;
      if ref in seen {
        var i: nat :| i < j && Ref(Follow(root, node, i)) == Some(ref);
        RepeatNeverEnds(root, node, i, j);
      } else {
        Hop(root, cur, seen);
        OneMore(root, node, j);
        DerefOnChain(root, node, j + 1, seen + {ref});
      }
    }
  }

  lemma OneMore(root: Json, node: Json, j: nat)
    requires Ref(Follow(root, node, j)).Some?
    ensures Follow(root, node, j + 1) == Target(root, Ref(Follow(root, node, j)).value)
  {
    hide Ref, Target;
    FollowAdd(root, node, j, 1);
  }

  /** With nothing seen before, the guard cuts exactly the chains that never end, and otherwise the end of the
      chain is found. */
  lemma GuardCutsExactlyLoops(root: Json, node: Json)
    requires Known(root, node)
    ensures if Ends(root, node)
            then exists n: nat :: Ref(Follow(root, node, n)).None? && Deref(root, node, {}).0 == Follow(root, node, n)
            else Deref(root, node, {}).0 == CUT
  {
    hide RefsOf, Unseen, Target, Ref, Known, Deref;
    assert Follow(root, node, 0) == node;
    DerefOnChain(root, node, 0, {});
  }

  /** Whatever has been seen, resolving gives the end of the chain or the stand-in. */
  lemma {:induction false} DerefFollows(root: Json, node: Json, seen: set<string>)
    requires Known(root, node)
    ensures var r := Deref(root, node, seen).0;
            (Ref(node).Some? && r == CUT) || exists n: nat :: Ref(Follow(root, node, n)).None? && r == Follow(root, node, n)
    decreases Unseen(root, seen)
  {
    hide RefsOf, Unseen, Target, Ref, Known, Walk;
    assert Follow(root, node, 0) == node;
    if Ref(node).Some? && Ref(node).value !in seen {
      var next := Target(root, Ref(node).value);
      Hop(root, node, seen);
      DerefFollows(root, next, seen + {Ref(node).value});
      var r := Deref(root, node, seen).0;
      assert r == Deref(root, next, seen + {Ref(node).value}).0;
      if r != CUT {
        var n: nat :| Ref(Follow(root, next, n)).None? && r == Follow(root, next, n);
        assert Follow(root, node, n + 1) == Follow(root, next, n);
        assert Ref(Follow(root, node, n + 1)).None? && r == Follow(root, node, n + 1);
      }
    }
  }

  // ----- resolution without the guard -----

  /** deref without a seen set, as parameters are resolved: what it returns within n calls, if it returns. */
  function Unguarded(root: Json, node: Json, n: nat): Option<Json>
    decreases n
  {
    if Ref(node).None? then Some(node)
    else if n == 0 then None
    else Unguarded(root, Target(root, Ref(node).value), n - 1)
  }

  lemma {:induction false} UnguardedFollows(root: Json, node: Json, n: nat)
    ensures Unguarded(root, node, n) == if Ref(Follow(root, node, n)).None? then Some(Follow(root, node, n)) else None
    decreases n
  {
    hide Ref, Target;
    if n > 0 && Ref(node).Some? {
      UnguardedFollows(root, Target(root, Ref(node).value), n - 1);
    }
  }

  /** It returns exactly when the chain ends, then within as many calls as the document has references, and with
      what the guarded resolution finds; on a chain that loops it recurses for ever. */
  lemma UnguardedReturnsExactly(root: Json, node: Json)
    requires Known(root, node)
    ensures (exists n: nat :: Unguarded(root, node, n).Some?) <==> Ends(root, node)
    ensures Ends(root, node) ==>
              exists n: nat :: n <= |RefsOf(root)| && Unguarded(root, node, n) == Some(Deref(root, node, {}).0)
  {
    hide RefsOf, Target, Ref, Known, Deref, Follow, Unguarded, Ends;
    UnguardedEnds(root, node);
    if Ends(root, node) {
      DerefEnds(root, node);
      var n: nat :| n <= Unseen(root, {}) && Ref(Follow(root, node, n)).None? && Deref(root, node, {}).0 == Follow(root, node, n);
      UnguardedFollows(root, node, n);
      assert RefsOf(root) - {} == RefsOf(root);
    }
  }

  lemma UnguardedEnds(root: Json, node: Json)
    ensures (exists n: nat :: Unguarded(root, node, n).Some?) <==> Ends(root, node)
  {
    hide Ref, Follow, Unguarded;
    forall n: nat
      ensures Unguarded(root, node, n).Some? <==> Ref(Follow(root, node, n)).None?
    {
      UnguardedFollows(root, node, n);
    }
    if Ends(root, node) {
      var n: nat :| Ref(Follow(root, node, n)).None?;
      assert Unguarded(root, node, n).Some?;
    }
  }

  lemma DerefEnds(root: Json, node: Json)
    requires Known(root, node) && Ends(root, node)
    ensures exists n: nat :: n <= Unseen(root, {}) && Ref(Follow(root, node, n)).None? && Deref(root, node, {}).0 == Follow(root, node, n)
  {
    hide RefsOf, Target, Ref, Known, Unseen, Follow;
    NothingOnChain(root, node);
    EndsWithin(root, node, 0, {});
  }

  lemma NothingOnChain(root: Json, node: Json)
    ensures SeenOnChain(root, node, 0, {}) && Follow(root, node, 0) == node
  {
  }

  lemma {:induction false} EndsWithin(root: Json, node: Json, j: nat, seen: set<string>)
    requires Known(root, node) && Ends(root, node) && SeenOnChain(root, node, j, seen) && Known(root, Follow(root, node, j))
    ensures exists n: nat :: && n <= j + Unseen(root, seen) && Ref(Follow(root, node, n)).None?
                             && Deref(root, Follow(root, node, j), seen).0 == Follow(root, node, n)
    decreases Unseen(root, seen)
  {
    hide RefsOf, Unseen, Target, Ref, Follow, Known, Walk, Ends;
    var cur := Follow(root, node, j);
    if Ref(cur).Some? {
      var ref := Ref(cur).value;
      if ref in seen {
        var i: nat :| i < j && Ref(Follow(root, node, i)) == Some(ref);
        RepeatNeverEnds(root, node, i, j);
      } else {
        Hop(root, cur, seen);
        OneMore(root, node, j);
        EndsWithin(root, node, j + 1, seen + {ref});
      }
    }
  }

  // ----- the shape of every outcome -----

  /** What a part of an allOf may contribute: its own properties, or nothing where its reference was cut. */
  ghost predicate PartOf(root: Json, sub: Json, c: map<string, Json>) {
    if !sub.Obj? then c == map[]
    else (Ref(sub).Some? && c == map[]) || exists n: nat :: Ref(Follow(root, sub, n)).None? && c == Properties(Follow(root, sub, n))
  }

  ghost predicate MergeOf(root: Json, subs: seq<Json>, m: map<string, Json>) {
    if subs == [] then m == map[]
    else exists before, c :: MergeOf(root, subs[..|subs| - 1], before) && PartOf(root, subs[|subs| - 1], c) && m == before + c
  }

  /** v has the shape schema asks for, read without any set of seen references: every property is there and
      nothing else, arrays hold one item, and only a reference may be left as an empty object. */
  ghost predicate Fits(root: Json, schema: Json, v: Json)
    decreases v, 2
  {
    || (Ref(schema).Some? && v == Obj(map[]))
    || exists n: nat :: Ref(Follow(root, schema, n)).None? && FitsPlan(root, Follow(root, schema, n), v)
  }

  ghost predicate FitsPlan(root: Json, s: Json, v: Json)
    decreases v, 1
  {
    match PlanOf(s)
    case Literal(lit) => v == lit
    case Merged(subs) => exists m :: MergeOf(root, subs, m) && FitsFields(root, m, v)
    case Fields(props) => FitsFields(root, props, v)
    case Single(item) => v.Arr? && |v.items| == 1 && Fits(root, item, v.items[0])
  }

  ghost predicate FitsFields(root: Json, props: map<string, Json>, v: Json)
    decreases v, 0
  {
    && v.Obj? && v.fields.Keys == props.Keys
    && forall k :: k in props ==> if props[k].Obj? then Fits(root, props[k], v.fields[k]) else v.fields[k] == Null
  }

  lemma CutFits(root: Json, seen: set<string>, v: Json, after: set<string>)
    requires Known(root, CUT) && CanPlan(root, CUT, seen, v, after)
    ensures v == Obj(map[])
  {
    hide RefsOf, Unseen, PlanOf;
    CutPlan();
    NoFieldsOnly(root, seen, v.fields, after, CUT);
  }

  lemma {:induction false} MergeFits(root: Json, subs: seq<Json>, seen: set<string>, top: Json)
    requires forall i :: 0 <= i < |subs| ==> Known(root, subs[i]) && (top decreases to subs[i])
    ensures MergeOf(root, subs, Merge(root, subs, seen, top).0)
    decreases |subs|
  {
    hide RefsOf, Unseen, Known, PartOf, Part;
    if subs != [] {
      MergeFits(root, subs[..|subs| - 1], seen, top);
      PartFits(root, subs[|subs| - 1], Merge(root, subs[..|subs| - 1], seen, top).1);
    }
  }

  lemma PartFits(root: Json, sub: Json, seen: set<string>)
    requires Known(root, sub)
    ensures PartOf(root, sub, Part(root, sub, seen).0)
  {
    hide RefsOf, Unseen, Known, Deref, Follow;
    if sub.Obj? {
      DerefFollows(root, sub, seen);
      assert Properties(CUT) == map[];
    }
  }

  lemma {:induction false} CanFits(root: Json, schema: Json, seen: set<string>, v: Json, after: set<string>)
    requires Known(root, schema) && Can(root, schema, seen, v, after)
    ensures Fits(root, schema, v) && seen <= after
    decreases Unseen(root, seen), schema, 2, 0
  {
    hide RefsOf, Unseen, Known, Deref, CanPlan, FitsPlan, Follow;
    var found := Deref(root, schema, seen);
    if !(Ref(schema).Some? && found == (CUT, seen)) {
      DerefFollows(root, schema, seen);
      CanPlanFits(root, found.0, found.1, v, after);
      if Ref(schema).Some? && found.0 == CUT {
        CutFits(root, found.1, v, after);
      }
    }
  }

  lemma {:induction false} CanPlanFits(root: Json, s: Json, seen: set<string>, v: Json, after: set<string>)
    requires Known(root, s) && CanPlan(root, s, seen, v, after)
    ensures FitsPlan(root, s, v) && seen <= after
    decreases Unseen(root, seen), s, 1, 0
  {
    hide RefsOf, Unseen, Known, PlanOf, CanFields, FitsFields, Can, Fits;
    PlanIsSmaller(root, s);
    match PlanOf(s)
    case Literal(lit) =>
    case Merged(subs) =>
      var m := Merge(root, subs, seen, s);
      var top := if Unseen(root, m.1) == Unseen(root, seen) then s else Obj(m.0);
      MergeFits(root, subs, seen, s);
      CanFieldsFit(root, m.0, m.1, v.fields, after, top);
    case Fields(props) => CanFieldsFit(root, props, seen, v.fields, after, s);
    case Single(item) => CanFits(root, item, seen, v.items[0], after);
  }

  lemma {:induction false} CanFieldsFit(root: Json, props: map<string, Json>, seen: set<string>,
                                        out: map<string, Json>, after: set<string>, top: Json)
    requires forall k :: k in props ==> Known(root, props[k]) && (top decreases to props[k])
    requires CanFields(root, props, seen, out, after, top)
    ensures FitsFields(root, props, Obj(out)) && seen <= after
    decreases Unseen(root, seen), top, 0, |props|
  {
    hide RefsOf, Unseen, Known, Can, Fits;
    if props != map[] {
      hide FitsFields;
      var k, mid :| && k in props && k in out && seen <= mid
        && (if props[k].Obj? then Can(root, props[k], seen, out[k], mid) else out[k] == Null && mid == seen)
        && (UnseenShrinks(root, seen, mid); CanFields(root, props - {k}, mid, out - {k}, after, top));
      UnseenShrinks(root, seen, mid);
      if props[k].Obj? {
        CanFits(root, props[k], seen, out[k], mid);
      }
      CanFieldsFit(root, props - {k}, mid, out - {k}, after, top);
      FitsOneMore(root, props, k, out);
    }
  }

  lemma FitsOneMore(root: Json, props: map<string, Json>, k: string, out: map<string, Json>)
    requires k in props && k in out && FitsFields(root, props - {k}, Obj(out - {k}))
    requires if props[k].Obj? then Fits(root, props[k], out[k]) else out[k] == Null
    ensures FitsFields(root, props, Obj(out))
  {
    hide Fits;
    assert props.Keys == (props - {k}).Keys + {k} && out.Keys == (out - {k}).Keys + {k};
    forall x | x in props && x != k
      ensures if props[x].Obj? then Fits(root, props[x], out[x]) else out[x] == Null
    {
      assert x in props - {k} && (props - {k})[x] == props[x] && (out - {k})[x] == out[x];
    }
  }
}
