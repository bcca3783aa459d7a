/** Runs of the blob cache from the start that show what its bounds and conditions are for. */
module BlobCacheRuns {
  import opened Basics
  import opened MapSum
  import opened Eviction
  import opened BlobCache
  import opened CacheLimit

  // --- the building blocks ------------------------------------------------------------------

  /** Caller c arrives at p, finds nothing, and becomes its filler. */
  ghost function Looked(w: World, c: Caller, p: Path, sha: seq<nat> -> Digest, maxBytes: nat): World {
    Step(Step(Step(w, Arrive(c, p), sha, maxBytes), Stat(c), sha, maxBytes), Lock(c, c), sha, maxBytes)
  }

  /** It learns the length and its walk begins. */
  ghost function Begun(w: World, c: Caller, p: Path, need: nat, sha: seq<nat> -> Digest, maxBytes: nat): World {
    Step(Step(Looked(w, c, p, sha, maxBytes), Respond(c, true, Some(need)), sha, maxBytes), BeginWalk(c), sha, maxBytes)
  }

  /** The walk visits the first n files of the order. */
  ghost function Visits(w: World, c: Caller, order: seq<Path>, n: nat, sha: seq<nat> -> Digest, maxBytes: nat): World
    requires n <= |order|
  {
    if n == 0 then w else Step(Visits(w, c, order, n - 1, sha, maxBytes), Visit(c, order[n - 1]), sha, maxBytes)
  }

  /** The walk ends and there is room. */
  ghost function Reserve(w: World, c: Caller, p: Path, need: nat, order: seq<Path>, sha: seq<nat> -> Digest, maxBytes: nat): World {
    var walked := Visits(Begun(w, c, p, need, sha, maxBytes), c, order, |order|, sha, maxBytes);
    Step(Step(walked, EndWalk(c, order), sha, maxBytes), Evict(c, true), sha, maxBytes)
  }

  ghost function FillIn(w: World, c: Caller, content: seq<nat>, sha: seq<nat> -> Digest, maxBytes: nat): World {
    Step(Step(w, Copy(c, true, content), sha, maxBytes), Publish(c, true), sha, maxBytes)
  }

  /** Nobody has used caller and channel c or path p yet. */
  predicate Unused(w: World, c: Caller, p: Path) { c !in w.calls && c !in w.opener && p !in w.disk && p !in w.inflight }

  lemma LookedIs(w: World, c: Caller, p: Path, sha: seq<nat> -> Digest, maxBytes: nat)
    requires Unused(w, c, p)
    ensures Looked(w, c, p, sha, maxBytes)
            == w.(calls := w.calls[c := Call(p, Requesting(c))], inflight := w.inflight[p := c], opener := w.opener[c := c],
                  closes := w.closes[c := 0])
  {
    hide StepRespond, StepBeginWalk, StepVisit, StepEndWalk, StepEvict, StepCopy, StepPublish, StepFinish;
    var a := Step(w, Arrive(c, p), sha, maxBytes);
    var b := Step(a, Stat(c), sha, maxBytes);
    assert b.calls == w.calls[c := Call(p, Missed)];
  }

  /** Caller c fills p and stands at pc; nothing else but passes has changed since w. */
  ghost predicate FillsAt(w: World, v: World, c: Caller, p: Path, pc: Pc) {
    v == w.(calls := w.calls[c := Call(p, pc)], inflight := w.inflight[p := c], opener := w.opener[c := c],
            closes := w.closes[c := 0], passes := v.passes)
  }

  lemma BegunIs(w: World, c: Caller, p: Path, need: nat, sha: seq<nat> -> Digest, maxBytes: nat)
    requires Unused(w, c, p) && need > 0
    ensures var v := Begun(w, c, p, need, sha, maxBytes);
            && FillsAt(w, v, c, p, Walking(c, need, |w.passes|)) && |v.passes| == |w.passes| + 1
            && v.passes[|w.passes|].left == w.disk.Keys && v.passes[|w.passes|].kept == map[] && v.passes[|w.passes|].times == map[]
  {
    hide Looked, Window, StepLock, StepVisit, StepEndWalk, StepEvict, StepCopy, StepPublish, StepFinish;
    LookedIs(w, c, p, sha, maxBytes);
    var a := Looked(w, c, p, sha, maxBytes);
    var b := Step(a, Respond(c, true, Some(need)), sha, maxBytes);
    assert b.calls == w.calls[c := Call(p, Sized(c, need))];
    var v := Begun(w, c, p, need, sha, maxBytes);
    assert v.calls == w.calls[c := Call(p, Walking(c, need, |w.passes|))];
  }

  /** What the walk has gathered after the first n files. */
  ghost predicate Gathered(pass: Pass, disk: Disk, order: seq<Path>, n: nat)
    requires n <= |order|
  {
    && pass.left == (set p | p in disk && p !in order[..n])
    && pass.kept == (map p | p in disk && p in order[..n] :: |disk[p].content|)
    && pass.times == (map p | p in disk && p in order[..n] :: disk[p].mtime)
  }

  lemma {:induction false} VisitsAre(w: World, c: Caller, order: seq<Path>, n: nat, i: nat, sha: seq<nat> -> Digest, maxBytes: nat)
    requires n <= |order| && i < |w.passes| && c in w.calls && w.calls[c].pc.Walking? && w.calls[c].pc.pass == i
    requires w.passes[i].left == w.disk.Keys && w.passes[i].kept == map[] && w.passes[i].times == map[]
    ensures var v := Visits(w, c, order, n, sha, maxBytes);
            && |v.passes| == |w.passes| && v == w.(passes := w.passes[i := v.passes[i]]) && Gathered(v.passes[i], w.disk, order, n)
  {
    hide Step, Visited, Gathered;
    if n == 0 {
      NothingGathered(w.passes[i], w.disk, order);
      assert w.passes[i := w.passes[i]] == w.passes;
    } else {
      VisitsAre(w, c, order, n - 1, i, sha, maxBytes);
      var v := Visits(w, c, order, n - 1, sha, maxBytes);
      VisitIs(v, c, order[n - 1], i, sha, maxBytes);
      GatheredMore(v.passes[i], w.disk, order, n);
    }
  }

  lemma VisitIs(w: World, c: Caller, p: Path, i: nat, sha: seq<nat> -> Digest, maxBytes: nat)
    requires i < |w.passes| && c in w.calls && w.calls[c].pc.Walking? && w.calls[c].pc.pass == i
    ensures Step(w, Visit(c, p), sha, maxBytes) == w.(passes := w.passes[i := Visited(w.passes[i], w.disk, p)])
  {
  }

  lemma NothingGathered(pass: Pass, disk: Disk, order: seq<Path>)
    requires pass.left == disk.Keys && pass.kept == map[] && pass.times == map[]
    ensures Gathered(pass, disk, order, 0)
  {
  }

  lemma GatheredMore(pass: Pass, disk: Disk, order: seq<Path>, n: nat)
    requires 0 < n <= |order| && Gathered(pass, disk, order, n - 1)
    ensures Gathered(Visited(pass, disk, order[n - 1]), disk, order, n)
  {
    assert order[..n] == order[..n - 1] + [order[n - 1]];
  }

  lemma GatheredAll(pass: Pass, disk: Disk, order: seq<Path>)
    requires Gathered(pass, disk, order, |order|) && OldestFirst(disk, order)
    ensures pass.left == {} && pass.kept == Sizes(disk) && Sortable(pass, order)
  {
    assert order[..|order|] == order;
  }

  lemma ReserveIs(w: World, c: Caller, p: Path, need: nat, order: seq<Path>, sha: seq<nat> -> Digest, maxBytes: nat)
    requires Unused(w, c, p) && need > 0 && OldestFirst(w.disk, order) && Total(w.disk) + need <= maxBytes
    ensures var v := Reserve(w, c, p, need, order, sha, maxBytes);
            FillsAt(w, v, c, p, Reserved(c, need, Some(|w.passes|))) && |v.passes| == |w.passes| + 1
  {
    hide OldestFirst, Begun, Visits, Total, StepLock, StepRespond, StepBeginWalk, StepVisit, StepEndWalk, StepCopy, StepPublish, StepFinish;
    RankedIs(w, c, p, order, need, sha, maxBytes);
  }

  lemma RankedIs(w: World, c: Caller, p: Path, order: seq<Path>, need: nat, sha: seq<nat> -> Digest, maxBytes: nat)
    requires Unused(w, c, p) && need > 0 && OldestFirst(w.disk, order)
    ensures var walked := Visits(Begun(w, c, p, need, sha, maxBytes), c, order, |order|, sha, maxBytes);
            var v := Step(walked, EndWalk(c, order), sha, maxBytes);
            FillsAt(w, v, c, p, Evicting(c, need, |w.passes|, order, Total(w.disk))) && |v.passes| == |w.passes| + 1
  {
    hide Sum, OldestFirst, Begun, Visits, Gathered, Sortable, StepLock, StepRespond, StepBeginWalk, StepVisit, StepEvict, StepCopy, StepPublish, StepFinish;
    BegunIs(w, c, p, need, sha, maxBytes);
    var a := Begun(w, c, p, need, sha, maxBytes);
    VisitsAre(a, c, order, |order|, |w.passes|, sha, maxBytes);
    var b := Visits(a, c, order, |order|, sha, maxBytes);
    GatheredAll(b.passes[|w.passes|], w.disk, order);
  }

  lemma FillInIs(w: World, c: Caller, content: seq<nat>, sha: seq<nat> -> Digest, maxBytes: nat)
    requires c in w.calls && BlobDigest(w.calls[c].path) in {None, Some(sha(content))}
    requires var pc := w.calls[c].pc; pc == Unbounded(c) || (pc.Reserved? && pc.ch == c && pc.need == |content|)
    ensures var v := FillIn(w, c, content, sha, maxBytes);
            && v == w.(calls := w.calls[c := Call(w.calls[c].path, Ended(c, true))],
                       disk := w.disk[w.calls[c].path := File(content, w.now)], passes := v.passes)
            && |v.passes| == |w.passes|
  {
    hide BlobDigest, StepLock, StepRespond, StepBeginWalk, StepVisit, StepEndWalk, StepEvict, StepFinish;
    var room := if w.calls[c].pc.Reserved? then w.calls[c].pc.room else None;
    var v := Step(w, Copy(c, true, content), sha, maxBytes);
    assert v.calls == w.calls[c := Call(w.calls[c].path, Written(c, content, room))];
  }

  // --- reached from an empty cache ------------------------------------------------------------

  ghost predicate Reachable(w: World, sha: seq<nat> -> Digest, maxBytes: nat) {
    exists start, es :: Init(start) && start.disk == map[] && Run(start, es, sha, maxBytes) == w
  }

  lemma Onward(w: World, e: Event, sha: seq<nat> -> Digest, maxBytes: nat)
    requires Reachable(w, sha, maxBytes)
    ensures Reachable(Step(w, e, sha, maxBytes), sha, maxBytes)
  {
    hide Step;
    var start, es :| Init(start) && start.disk == map[] && Run(start, es, sha, maxBytes) == w;
    assert (es + [e])[..|es + [e]| - 1] == es;
    assert Run(start, es + [e], sha, maxBytes) == Step(w, e, sha, maxBytes);
  }

  function Empty(): World { World(map[], map[], map[], map[], map[], [StartPass(map[])], 0) }

  lemma EmptyIsReached(sha: seq<nat> -> Digest, maxBytes: nat)
    ensures Reachable(Empty(), sha, maxBytes)
  {
    assert Run(Empty(), [], sha, maxBytes) == Empty();
  }

  lemma LookedOnward(w: World, c: Caller, p: Path, sha: seq<nat> -> Digest, maxBytes: nat)
    requires Reachable(w, sha, maxBytes)
    ensures Reachable(Looked(w, c, p, sha, maxBytes), sha, maxBytes)
  {
    hide Step, Reachable;
    var a := Step(w, Arrive(c, p), sha, maxBytes);
    var b := Step(a, Stat(c), sha, maxBytes);
    Onward(w, Arrive(c, p), sha, maxBytes);
    Onward(a, Stat(c), sha, maxBytes);
    Onward(b, Lock(c, c), sha, maxBytes);
  }

  lemma {:induction false} VisitsOnward(w: World, c: Caller, order: seq<Path>, n: nat, sha: seq<nat> -> Digest, maxBytes: nat)
    requires Reachable(w, sha, maxBytes) && n <= |order|
    ensures Reachable(Visits(w, c, order, n, sha, maxBytes), sha, maxBytes)
  {
    hide Step, Reachable;
    if n > 0 {
      VisitsOnward(w, c, order, n - 1, sha, maxBytes);
      Onward(Visits(w, c, order, n - 1, sha, maxBytes), Visit(c, order[n - 1]), sha, maxBytes);
    }
  }

  lemma ReserveOnward(w: World, c: Caller, p: Path, need: nat, order: seq<Path>, sha: seq<nat> -> Digest, maxBytes: nat)
    requires Reachable(w, sha, maxBytes)
    ensures Reachable(Reserve(w, c, p, need, order, sha, maxBytes), sha, maxBytes)
  {
    hide Step, Reachable, Looked;
    LookedOnward(w, c, p, sha, maxBytes);
    var a := Looked(w, c, p, sha, maxBytes);
    var b := Step(a, Respond(c, true, Some(need)), sha, maxBytes);
    Onward(a, Respond(c, true, Some(need)), sha, maxBytes);
    Onward(b, BeginWalk(c), sha, maxBytes);
    var d := Visits(Begun(w, c, p, need, sha, maxBytes), c, order, |order|, sha, maxBytes);
    VisitsOnward(Begun(w, c, p, need, sha, maxBytes), c, order, |order|, sha, maxBytes);
    Onward(d, EndWalk(c, order), sha, maxBytes);
    Onward(Step(d, EndWalk(c, order), sha, maxBytes), Evict(c, true), sha, maxBytes);
  }

  lemma FillInOnward(w: World, c: Caller, content: seq<nat>, sha: seq<nat> -> Digest, maxBytes: nat)
    requires Reachable(w, sha, maxBytes)
    ensures Reachable(FillIn(w, c, content, sha, maxBytes), sha, maxBytes)
  {
    hide Step, Reachable;
    Onward(w, Copy(c, true, content), sha, maxBytes);
    Onward(Step(w, Copy(c, true, content), sha, maxBytes), Publish(c, true), sha, maxBytes);
  }

  lemma NothingTotals()
    ensures Total(map[]) == 0 && OldestFirst(map[], [])
  {
    assert Sizes(map[]) == map[];
  }

  /** Two fills that both make room before either is published exceed the limit, for any two paths and sizes. */
  lemma TwoFillsExceedLimit(p: Path, q: Path, x: seq<nat>, y: seq<nat>, sha: seq<nat> -> Digest, maxBytes: nat) returns (w: World)
    requires p != q && BlobDigest(p) in {None, Some(sha(x))} && BlobDigest(q) in {None, Some(sha(y))}
    requires |x| <= maxBytes && |y| <= maxBytes && |x| + |y| > maxBytes
    ensures Reachable(w, sha, maxBytes) && Total(w.disk) > maxBytes
  {
    hide Step, Reachable, Total, OldestFirst, BlobDigest, Reserve, FillIn;
    EmptyIsReached(sha, maxBytes);
    NothingTotals();
    var a := Reserve(Empty(), 1, p, |x|, [], sha, maxBytes);
    ReserveOnward(Empty(), 1, p, |x|, [], sha, maxBytes);
    ReserveIs(Empty(), 1, p, |x|, [], sha, maxBytes);
    var b := Reserve(a, 2, q, |y|, [], sha, maxBytes);
    ReserveOnward(a, 2, q, |y|, [], sha, maxBytes);
    ReserveIs(a, 2, q, |y|, [], sha, maxBytes);
    var c := FillIn(b, 1, x, sha, maxBytes);
    FillInOnward(b, 1, x, sha, maxBytes);
    FillInIs(b, 1, x, sha, maxBytes);
    w := FillIn(c, 2, y, sha, maxBytes);
    FillInOnward(c, 2, y, sha, maxBytes);
    FillInIs(c, 2, y, sha, maxBytes);
    TotalAdd(map[], p, File(x, 0));
    TotalAdd(c.disk, q, File(y, 0));
  }

  /** Callers 1 and 2 both look and find nothing; 1 fills, publishes and finishes; then 2 downloads the cached file again. */
  lemma SecondDownload(p: Path, content: seq<nat>, sha: seq<nat> -> Digest, maxBytes: nat) returns (w: World)
    requires BlobDigest(p) in {None, Some(sha(content))}
    ensures Reachable(w, sha, maxBytes) && p in w.disk && w.disk[p].content == content
    ensures 2 in w.calls && w.calls[2] == Call(p, Requesting(2))
  {
    hide Reachable, BlobDigest, FillIn, Step;
    var d := BothLooked(p, sha, maxBytes);
    w := FillIn(d, 1, content, sha, maxBytes);
    FillInOnward(d, 1, content, sha, maxBytes);
    FillInIs(d, 1, content, sha, maxBytes);
    FinishAndLock(w, p, sha, maxBytes);
    Onward(w, Finish(1), sha, maxBytes);
    w := Step(w, Finish(1), sha, maxBytes);
    Onward(w, Lock(2, 2), sha, maxBytes);
    w := Step(w, Lock(2, 2), sha, maxBytes);
  }

  /** Both callers have looked, and caller 1 has its response. */
  lemma BothLooked(p: Path, sha: seq<nat> -> Digest, maxBytes: nat) returns (d: World)
    ensures Reachable(d, sha, maxBytes)
    ensures d == World(map[], map[p := 1], map[1 := Call(p, Unbounded(1)), 2 := Call(p, Missed)], map[1 := 1], map[1 := 0], [StartPass(map[])], 0)
  {
    hide Reachable, Looked, StepBeginWalk, StepVisit, StepEndWalk, StepEvict, StepCopy, StepPublish, StepLock, StepFinish;
    EmptyIsReached(sha, maxBytes);
    var a := Step(Empty(), Arrive(2, p), sha, maxBytes);
    Onward(Empty(), Arrive(2, p), sha, maxBytes);
    var b := Step(a, Stat(2), sha, maxBytes);
    Onward(a, Stat(2), sha, maxBytes);
    var c := Looked(b, 1, p, sha, maxBytes);
    LookedOnward(b, 1, p, sha, maxBytes);
    LookedIs(b, 1, p, sha, maxBytes);
    d := Step(c, Respond(1, true, None), sha, maxBytes);
    Onward(c, Respond(1, true, None), sha, maxBytes);
  }

  lemma FinishAndLock(w: World, p: Path, sha: seq<nat> -> Digest, maxBytes: nat)
    requires w.calls == map[1 := Call(p, Ended(1, true)), 2 := Call(p, Missed)] && w.inflight == map[p := 1] && w.opener == map[1 := 1]
    ensures var v := Step(Step(w, Finish(1), sha, maxBytes), Lock(2, 2), sha, maxBytes);
            v.disk == w.disk && v.calls == map[1 := Call(p, Returned(true)), 2 := Call(p, Requesting(2))]
  {
    hide StepBeginWalk, StepVisit, StepEndWalk, StepEvict, StepCopy, StepPublish, StepRespond;
    var v := Step(w, Finish(1), sha, maxBytes);
    assert v.calls == map[1 := Call(p, Returned(true)), 2 := Call(p, Missed)] && v.inflight == map[];
  }

  // --- the bound is reached ---------------------------------------------------------------------

  /** Reached from start by an orderly run. */
  ghost predicate OrderlyFrom(start: World, w: World, sha: seq<nat> -> Digest, maxBytes: nat, k: nat, largest: nat) {
    exists es :: Orderly(start, es, sha, maxBytes, k, largest) && Run(start, es, sha, maxBytes) == w
  }

  lemma OrderlyOnward(start: World, w: World, e: Event, sha: seq<nat> -> Digest, maxBytes: nat, k: nat, largest: nat)
    requires OrderlyFrom(start, w, sha, maxBytes, k, largest) && KnownLength(e) && FewFills(Step(w, e, sha, maxBytes).calls, k, largest)
    ensures OrderlyFrom(start, Step(w, e, sha, maxBytes), sha, maxBytes, k, largest)
  {
    hide Step, FewFills;
    var es :| Orderly(start, es, sha, maxBytes, k, largest) && Run(start, es, sha, maxBytes) == w;
    assert (es + [e])[..|es + [e]| - 1] == es;
    assert Run(start, es + [e], sha, maxBytes) == Step(w, e, sha, maxBytes);
  }

  /** The callers in s are between walk and publish, each with an object of the largest size. */
  ghost predicate WindowIs(calls: map<Caller, Call>, s: set<Caller>, largest: nat) {
    Window(calls) == s && forall c :: c in s ==> NeedOf(calls[c].pc) == largest
  }

  /** One caller more, wherever it stands. */
  lemma OneMoreIsFew(calls: map<Caller, Call>, s: set<Caller>, c: Caller, call: Call, k: nat, largest: nat)
    requires WindowIs(calls, s, largest) && c !in s && |s| < k && (InWindow(call.pc) ==> NeedOf(call.pc) == largest)
    ensures FewFills(calls[c := call], k, largest)
    ensures WindowIs(calls[c := call], if InWindow(call.pc) then s + {c} else s, largest)
  {
    assert Window(calls[c := call]) == if InWindow(call.pc) then s + {c} else s;
  }

  lemma ArriveAndStat(w: World, c: Caller, p: Path, sha: seq<nat> -> Digest, maxBytes: nat)
    requires Unused(w, c, p)
    ensures var a := Step(w, Arrive(c, p), sha, maxBytes);
            a.calls == w.calls[c := Call(p, Checking)] && Step(a, Stat(c), sha, maxBytes).calls == w.calls[c := Call(p, Missed)]
  {
    hide StepLock, StepRespond, StepBeginWalk, StepVisit, StepEndWalk, StepEvict, StepCopy, StepPublish, StepFinish;
  }

  lemma BegunOrderly(start: World, w: World, c: Caller, p: Path, sha: seq<nat> -> Digest, maxBytes: nat, s: set<Caller>, k: nat, largest: nat)
    requires OrderlyFrom(start, w, sha, maxBytes, k, largest) && WindowIs(w.calls, s, largest) && c !in s && |s| < k
    requires Unused(w, c, p) && largest > 0
    ensures OrderlyFrom(start, Begun(w, c, p, largest, sha, maxBytes), sha, maxBytes, k, largest)
  {
    hide Step, OrderlyFrom, WindowIs, FewFills, Unused;
    ArriveAndStat(w, c, p, sha, maxBytes);
    LookedIs(w, c, p, sha, maxBytes);
    BegunIs(w, c, p, largest, sha, maxBytes);
    SizedIs(w, c, p, largest, sha, maxBytes);
    var a := Step(w, Arrive(c, p), sha, maxBytes);
    var b := Step(a, Stat(c), sha, maxBytes);
    var l := Looked(w, c, p, sha, maxBytes);
    var d := Step(l, Respond(c, true, Some(largest)), sha, maxBytes);
    OneMoreIsFew(w.calls, s, c, Call(p, Checking), k, largest);
    OneMoreIsFew(w.calls, s, c, Call(p, Missed), k, largest);
    OneMoreIsFew(w.calls, s, c, Call(p, Requesting(c)), k, largest);
    OneMoreIsFew(w.calls, s, c, Call(p, Sized(c, largest)), k, largest);
    OneMoreIsFew(w.calls, s, c, Call(p, Walking(c, largest, |w.passes|)), k, largest);
    OrderlyOnward(start, w, Arrive(c, p), sha, maxBytes, k, largest);
    OrderlyOnward(start, a, Stat(c), sha, maxBytes, k, largest);
    OrderlyOnward(start, b, Lock(c, c), sha, maxBytes, k, largest);
    OrderlyOnward(start, l, Respond(c, true, Some(largest)), sha, maxBytes, k, largest);
    OrderlyOnward(start, d, BeginWalk(c), sha, maxBytes, k, largest);
  }

  lemma SizedIs(w: World, c: Caller, p: Path, need: nat, sha: seq<nat> -> Digest, maxBytes: nat)
    requires Unused(w, c, p) && need > 0
    ensures Step(Looked(w, c, p, sha, maxBytes), Respond(c, true, Some(need)), sha, maxBytes).calls == w.calls[c := Call(p, Sized(c, need))]
  {
    hide Looked, StepLock, StepBeginWalk, StepVisit, StepEndWalk, StepEvict, StepCopy, StepPublish, StepFinish;
    LookedIs(w, c, p, sha, maxBytes);
  }

  lemma {:induction false} VisitsOrderly(start: World, w: World, c: Caller, order: seq<Path>, n: nat, sha: seq<nat> -> Digest,
                                         maxBytes: nat, k: nat, largest: nat)
    requires n <= |order| && OrderlyFrom(start, w, sha, maxBytes, k, largest) && FewFills(w.calls, k, largest)
    ensures OrderlyFrom(start, Visits(w, c, order, n, sha, maxBytes), sha, maxBytes, k, largest)
    ensures Visits(w, c, order, n, sha, maxBytes).calls == w.calls
  {
    hide Step, OrderlyFrom, FewFills;
    if n > 0 {
      VisitsOrderly(start, w, c, order, n - 1, sha, maxBytes, k, largest);
      var v := Visits(w, c, order, n - 1, sha, maxBytes);
      VisitMovesNobody(v, c, order[n - 1], sha, maxBytes);
      OrderlyOnward(start, v, Visit(c, order[n - 1]), sha, maxBytes, k, largest);
    }
  }

  lemma VisitMovesNobody(w: World, c: Caller, p: Path, sha: seq<nat> -> Digest, maxBytes: nat)
    ensures Step(w, Visit(c, p), sha, maxBytes).calls == w.calls
  {
    hide Visited;
  }

  lemma ReserveOrderly(start: World, w: World, c: Caller, p: Path, order: seq<Path>, sha: seq<nat> -> Digest, maxBytes: nat,
                       s: set<Caller>, k: nat, largest: nat)
    requires OrderlyFrom(start, w, sha, maxBytes, k, largest) && WindowIs(w.calls, s, largest) && c !in s && |s| < k
    requires Unused(w, c, p) && largest > 0 && OldestFirst(w.disk, order) && Total(w.disk) + largest <= maxBytes
    ensures OrderlyFrom(start, Reserve(w, c, p, largest, order, sha, maxBytes), sha, maxBytes, k, largest)
    ensures WindowIs(Reserve(w, c, p, largest, order, sha, maxBytes).calls, s + {c}, largest)
  {
    hide Step, OrderlyFrom, WindowIs, FewFills, OldestFirst, Total, Unused, Begun, Visits;
    BegunOrderly(start, w, c, p, sha, maxBytes, s, k, largest);
    BegunIs(w, c, p, largest, sha, maxBytes);
    var a := Begun(w, c, p, largest, sha, maxBytes);
    OneMoreIsFew(w.calls, s, c, Call(p, Walking(c, largest, |w.passes|)), k, largest);
    VisitsOrderly(start, a, c, order, |order|, sha, maxBytes, k, largest);
    var b := Visits(a, c, order, |order|, sha, maxBytes);
    RankedIs(w, c, p, order, largest, sha, maxBytes);
    OneMoreIsFew(w.calls, s, c, Call(p, Evicting(c, largest, |w.passes|, order, Total(w.disk))), k, largest);
    OrderlyOnward(start, b, EndWalk(c, order), sha, maxBytes, k, largest);
    ReserveIs(w, c, p, largest, order, sha, maxBytes);
    OneMoreIsFew(w.calls, s, c, Call(p, Reserved(c, largest, Some(|w.passes|))), k, largest);
    OrderlyOnward(start, Step(b, EndWalk(c, order), sha, maxBytes), Evict(c, true), sha, maxBytes, k, largest);
  }

  lemma FillInOrderly(start: World, w: World, c: Caller, content: seq<nat>, sha: seq<nat> -> Digest, maxBytes: nat,
                      s: set<Caller>, k: nat)
    requires OrderlyFrom(start, w, sha, maxBytes, k, |content|) && WindowIs(w.calls, s, |content|) && c in s && |s| <= k
    requires c in w.calls && w.calls[c].pc.Reserved? && w.calls[c].pc.ch == c && w.calls[c].pc.need == |content|
    requires w.calls[c].pc.room.Some? && BlobDigest(w.calls[c].path).None?
    ensures OrderlyFrom(start, FillIn(w, c, content, sha, maxBytes), sha, maxBytes, k, |content|)
    ensures WindowIs(FillIn(w, c, content, sha, maxBytes).calls, s - {c}, |content|)
  {
    hide Step, OrderlyFrom, FewFills, BlobDigest, WindowIs;
    var path, room := w.calls[c].path, w.calls[c].pc.room;
    CopyIs(w, c, content, sha, maxBytes);
    FillInIs(w, c, content, sha, maxBytes);
    SameWindow(w.calls, s, c, Call(path, Written(c, content, room)), k, |content|);
    LeavesWindow(w.calls, s, c, Call(path, Ended(c, true)), k, |content|);
    OrderlyOnward(start, w, Copy(c, true, content), sha, maxBytes, k, |content|);
    OrderlyOnward(start, Step(w, Copy(c, true, content), sha, maxBytes), Publish(c, true), sha, maxBytes, k, |content|);
  }

  lemma CopyIs(w: World, c: Caller, content: seq<nat>, sha: seq<nat> -> Digest, maxBytes: nat)
    requires c in w.calls && w.calls[c].pc.Reserved? && w.calls[c].pc.need == |content|
    ensures Step(w, Copy(c, true, content), sha, maxBytes).calls
            == w.calls[c := Call(w.calls[c].path, Written(w.calls[c].pc.ch, content, w.calls[c].pc.room))]
  {
  }

  lemma SameWindow(calls: map<Caller, Call>, s: set<Caller>, c: Caller, call: Call, k: nat, largest: nat)
    requires WindowIs(calls, s, largest) && c in s && |s| <= k && InWindow(call.pc) && NeedOf(call.pc) == largest
    ensures FewFills(calls[c := call], k, largest) && WindowIs(calls[c := call], s, largest)
  {
    assert Window(calls[c := call]) == s;
  }

  lemma LeavesWindow(calls: map<Caller, Call>, s: set<Caller>, c: Caller, call: Call, k: nat, largest: nat)
    requires WindowIs(calls, s, largest) && c in s && |s| <= k && !InWindow(call.pc)
    ensures FewFills(calls[c := call], k, largest) && WindowIs(calls[c := call], s - {c}, largest)
  {
    assert Window(calls[c := call]) == s - {c};
  }

  /** Different paths without a digest. */
  function Name(i: nat): Path { seq(i + 1, _ => 'x') }

  lemma Names(i: nat, j: nat)
    ensures BlobDigest(Name(i)).None? && Name(i) != "" && (Name(i) == Name(j) ==> i == j)
  {
    assert |Name(i)| == i + 1 && |Name(j)| == j + 1;
    assert Name(i)[0] == 'x' && BLOBS[0] == '/';
    assert !(BLOBS <= Name(i));
    assert !IsHex('x');
    if i >= 1 { assert !AllHex(Name(i)[..2]) by { assert Name(i)[..2][0] == 'x'; } }
  }

  /** The numbers from lo to hi - 1. */
  function Upto(lo: nat, hi: nat): (s: set<nat>)
    ensures forall i: nat :: i in s <==> lo <= i < hi
    ensures |s| == if lo <= hi then hi - lo else 0
    decreases hi
  {
    if lo >= hi then {} else Upto(lo, hi - 1) + {hi - 1}
  }

  /** A cache whose one file leaves room for exactly one object of the largest size. */
  function Base(maxBytes: nat, largest: nat): World
    requires largest <= maxBytes
  {
    var disk := map["" := File(seq(maxBytes - largest, _ => 0), 0)];
    World(disk, map[], map[], map[], map[], [StartPass(disk)], 0)
  }

  lemma BaseFits(maxBytes: nat, largest: nat)
    requires largest <= maxBytes
    ensures Total(Base(maxBytes, largest).disk) == maxBytes - largest && OldestFirst(Base(maxBytes, largest).disk, [""])
    ensures Init(Base(maxBytes, largest)) && WindowIs(Base(maxBytes, largest).calls, {}, largest)
  {
    var f := File(seq(maxBytes - largest, _ => 0), 0);
    TotalAdd(map[], "", f);
    NothingTotals();
    assert Base(maxBytes, largest).disk == map[]["" := f];
  }

  /** The callers below n fill their own paths; those below m have published, the others have room made. */
  ghost predicate CallsAt(calls: map<Caller, Call>, n: nat, m: nat, largest: nat) {
    && calls.Keys == Upto(0, n)
    && forall i: nat :: i < n ==> calls[i] == Call(Name(i), if i < m then Ended(i, true) else Reserved(i, largest, Some(i + 1)))
  }

  function Times(m: nat, largest: nat): nat { m * largest }

  lemma TimesSteps(m: nat, largest: nat)
    ensures Times(0, largest) == 0 && Times(m + 1, largest) == Times(m, largest) + largest
  {
    assert (m + 1) * largest == m * largest + largest;
  }

  ghost predicate NamesBelow(s: set<Path>, n: nat) { forall p :: p in s ==> exists i: nat :: i < n && p == Name(i) }

  ghost predicate Stage(w: World, n: nat, m: nat, maxBytes: nat, largest: nat)
    requires largest <= maxBytes
  {
    && CallsAt(w.calls, n, m, largest) && w.opener.Keys == Upto(0, n) && |w.passes| == n + 1
    && NamesBelow(w.inflight.Keys, n) && NamesBelow(w.disk.Keys - {""}, m)
    && (m == 0 ==> w.disk == Base(maxBytes, largest).disk)
    && Total(w.disk) == maxBytes - largest + Times(m, largest) && w.now == 0
  }

  lemma UptoMore(n: nat)
    ensures Upto(0, n + 1) == Upto(0, n) + {n}
  {
    hide Upto;
  }

  lemma CallsGrow(calls: map<Caller, Call>, n: nat, largest: nat)
    requires CallsAt(calls, n, 0, largest)
    ensures CallsAt(calls[n := Call(Name(n), Reserved(n, largest, Some(n + 1)))], n + 1, 0, largest)
    ensures Upto(0, n + 1) == Upto(0, n) + {n}
  {
    hide Name, Upto;
    UptoMore(n);
    var more := calls[n := Call(Name(n), Reserved(n, largest, Some(n + 1)))];
    assert more.Keys == calls.Keys + {n};
    assert forall i: nat :: i < n ==> more[i] == calls[i];
  }

  lemma CallsMove(calls: map<Caller, Call>, n: nat, m: nat, largest: nat)
    requires CallsAt(calls, n, m, largest) && m < n
    ensures CallsAt(calls[m := Call(Name(m), Ended(m, true))], n, m + 1, largest)
  {
    hide Name, Upto;
    assert calls[m := Call(Name(m), Ended(m, true))].Keys == calls.Keys;
  }

  lemma NamesGrow(s: set<Path>, t: set<Path>, n: nat)
    requires NamesBelow(s, n) && t <= s + {Name(n)}
    ensures NamesBelow(t, n + 1)
  {
    hide Name;
    forall p | p in t
      ensures exists i: nat :: i < n + 1 && p == Name(i)
    {
      if p != Name(n) {
        var i: nat :| i < n && p == Name(i);
        assert i < n + 1;
      }
    }
  }

  lemma NewName(s: set<Path>, n: nat)
    requires NamesBelow(s, n)
    ensures Name(n) !in s && Name(n) != "" && BlobDigest(Name(n)).None?
  {
    hide Name, BlobDigest;
    Names(n, n);
    if Name(n) in s {
      var i: nat :| i < n && Name(n) == Name(i);
      Names(n, i);
    }
  }

  lemma ReserveFits(w: World, n: nat, maxBytes: nat, largest: nat)
    requires largest <= maxBytes && Stage(w, n, 0, maxBytes, largest)
    ensures Unused(w, n, Name(n)) && OldestFirst(w.disk, [""]) && Total(w.disk) + largest <= maxBytes
  {
    hide Total, OldestFirst, BlobDigest, Name, NamesBelow, Times;
    BaseFits(maxBytes, largest);
    TimesSteps(0, largest);
    NewName(w.inflight.Keys, n);
  }

  lemma StageGrows(w: World, v: World, n: nat, maxBytes: nat, largest: nat)
    requires largest <= maxBytes && Stage(w, n, 0, maxBytes, largest) && |v.passes| == n + 2
    requires FillsAt(w, v, n, Name(n), Reserved(n, largest, Some(n + 1)))
    ensures Stage(v, n + 1, 0, maxBytes, largest)
  {
    hide Total, Name, Base, CallsAt, NamesBelow, Upto, Times;
    CallsGrow(w.calls, n, largest);
    NamesGrow(w.inflight.Keys, v.inflight.Keys, n);
  }

  lemma ReserveStage(w: World, n: nat, maxBytes: nat, largest: nat, sha: seq<nat> -> Digest)
    requires 0 < largest <= maxBytes && Stage(w, n, 0, maxBytes, largest)
    ensures Stage(Reserve(w, n, Name(n), largest, [""], sha, maxBytes), n + 1, 0, maxBytes, largest)
  {
    hide Total, OldestFirst, Reserve, Name, Unused, Stage, FillsAt;
    ReserveFits(w, n, maxBytes, largest);
    ReserveIs(w, n, Name(n), largest, [""], sha, maxBytes);
    PassCount(w, n, 0, maxBytes, largest);
    StageGrows(w, Reserve(w, n, Name(n), largest, [""], sha, maxBytes), n, maxBytes, largest);
  }

  lemma PassCount(w: World, n: nat, m: nat, maxBytes: nat, largest: nat)
    requires largest <= maxBytes && Stage(w, n, m, maxBytes, largest)
    ensures |w.passes| == n + 1
  {
  }

  lemma FillStage(w: World, n: nat, m: nat, maxBytes: nat, content: seq<nat>, sha: seq<nat> -> Digest)
    requires |content| <= maxBytes && m < n && Stage(w, n, m, maxBytes, |content|)
    ensures m in w.calls && w.calls[m].pc == Reserved(m, |content|, Some(m + 1)) && BlobDigest(w.calls[m].path).None?
    ensures Stage(FillIn(w, m, content, sha, maxBytes), n, m + 1, maxBytes, |content|)
  {
    hide Total, FillIn, BlobDigest, Name, Base, NamesBelow, Times;
    NewName(w.disk.Keys - {""}, m);
    FillInIs(w, m, content, sha, maxBytes);
    TotalAdd(w.disk, Name(m), File(content, 0));
    TimesSteps(m, |content|);
    var v := FillIn(w, m, content, sha, maxBytes);
    CallsMove(w.calls, n, m, |content|);
    NamesGrow(w.disk.Keys - {""}, v.disk.Keys - {""}, m);
  }

  lemma {:induction false} ReserveAll(n: nat, k: nat, maxBytes: nat, largest: nat, sha: seq<nat> -> Digest) returns (w: World)
    requires 0 < largest <= maxBytes && n <= k
    ensures Stage(w, n, 0, maxBytes, largest) && WindowIs(w.calls, Upto(0, n), largest)
    ensures OrderlyFrom(Base(maxBytes, largest), w, sha, maxBytes, k, largest)
  {
    hide Total, OldestFirst, WindowIs, OrderlyFrom, Stage, Reserve, Base, Unused;
    if n == 0 {
      w := Base(maxBytes, largest);
      StartStage(k, maxBytes, largest, sha);
    } else {
      var v := ReserveAll(n - 1, k, maxBytes, largest, sha);
      w := Reserve(v, n - 1, Name(n - 1), largest, [""], sha, maxBytes);
      ReserveFits(v, n - 1, maxBytes, largest);
      ReserveStage(v, n - 1, maxBytes, largest, sha);
      ReserveOrderly(Base(maxBytes, largest), v, n - 1, Name(n - 1), [""], sha, maxBytes, Upto(0, n - 1), k, largest);
      assert Upto(0, n) == Upto(0, n - 1) + {n - 1};
    }
  }

  lemma StartStage(k: nat, maxBytes: nat, largest: nat, sha: seq<nat> -> Digest)
    requires largest <= maxBytes
    ensures Stage(Base(maxBytes, largest), 0, 0, maxBytes, largest) && WindowIs(Base(maxBytes, largest).calls, Upto(0, 0), largest)
    ensures OrderlyFrom(Base(maxBytes, largest), Base(maxBytes, largest), sha, maxBytes, k, largest)
  {
    hide Total, OldestFirst, Times;
    var w := Base(maxBytes, largest);
    TimesSteps(0, largest);
    BaseFits(maxBytes, largest);
    assert Run(w, [], sha, maxBytes) == w;
    assert Orderly(w, [], sha, maxBytes, k, largest);
  }

  lemma {:induction false} FillAll(m: nat, k: nat, maxBytes: nat, content: seq<nat>, sha: seq<nat> -> Digest) returns (w: World)
    requires 0 < |content| <= maxBytes && m <= k
    ensures Stage(w, k, m, maxBytes, |content|) && WindowIs(w.calls, Upto(m, k), |content|)
    ensures OrderlyFrom(Base(maxBytes, |content|), w, sha, maxBytes, k, |content|)
  {
    hide Total, OldestFirst, WindowIs, OrderlyFrom, Stage, FillIn, Base, BlobDigest;
    if m == 0 {
      w := ReserveAll(k, k, maxBytes, |content|, sha);
    } else {
      var v := FillAll(m - 1, k, maxBytes, content, sha);
      w := FillIn(v, m - 1, content, sha, maxBytes);
      FillStage(v, k, m - 1, maxBytes, content, sha);
      FillInOrderly(Base(maxBytes, |content|), v, m - 1, content, sha, maxBytes, Upto(m - 1, k), k);
      assert Upto(m, k) == Upto(m - 1, k) - {m - 1};
    }
  }

  lemma FullStage(w: World, k: nat, maxBytes: nat, largest: nat)
    requires largest <= maxBytes && k > 0 && Stage(w, k, k, maxBytes, largest)
    ensures Total(w.disk) == maxBytes + (k - 1) * largest
  {
    hide Total, CallsAt, NamesBelow, Base, Upto, Times;
    TimesSteps(k - 1, largest);
    TimesIs(k - 1, largest);
  }

  lemma TimesIs(m: nat, largest: nat)
    ensures Times(m, largest) == m * largest
  {
  }

  /** For every limit, object size within it and k, some orderly run from a cache within the limit reaches the bound. */
  lemma LimitBoundIsReached(maxBytes: nat, largest: nat, k: nat, sha: seq<nat> -> Digest) returns (w: World, es: seq<Event>)
    requires largest <= maxBytes && k > 0
    ensures Init(w) && Total(w.disk) <= maxBytes && Orderly(w, es, sha, maxBytes, k, largest)
    ensures Total(Run(w, es, sha, maxBytes).disk) == maxBytes + (k - 1) * largest
  {
    hide Total, OldestFirst, Orderly, Run, WindowIs, Init, Stage, Base;
    w := Base(maxBytes, largest);
    BaseFits(maxBytes, largest);
    var v := w;
    if largest == 0 {
      StartStage(k, maxBytes, largest, sha);
      assert (k - 1) * largest == 0;
    } else {
      v := FillAll(k, k, maxBytes, seq(largest, _ => 0), sha);
      FullStage(v, k, maxBytes, largest);
    }
    es :| Orderly(w, es, sha, maxBytes, k, largest) && Run(w, es, sha, maxBytes) == v;
  }

  // --- a pass that runs alone --------------------------------------------------------------------------

  /** The removal loop of c, n turns long and undisturbed; the files in stuck cannot be removed. */
  ghost function Turns(w: World, c: Caller, order: seq<Path>, stuck: set<Path>, n: nat, sha: seq<nat> -> Digest, maxBytes: nat): World
    requires n <= |order|
  {
    if n == 0 then w
    else Step(Turns(w, c, order, stuck, n - 1, sha, maxBytes), Evict(c, order[n - 1] !in stuck), sha, maxBytes)
  }

  /** The loop of c stands at todo with entries and total that are those of the disk. */
  ghost predicate AtTurn(v: World, c: Caller, ch: Chan, need: nat, i: nat, todo: seq<Path>, disk: Disk) {
    && v.disk == disk && c in v.calls && v.calls[c].pc == Evicting(ch, need, i, todo, Total(disk))
    && i < |v.passes| && v.passes[i].kept == Sizes(disk)
  }

  lemma OneTurn(v: World, c: Caller, ch: Chan, need: nat, i: nat, todo: seq<Path>, disk: Disk, ok: bool, sha: seq<nat> -> Digest, maxBytes: nat)
    requires AtTurn(v, c, ch, need, i, todo, disk) && todo != [] && todo[0] in disk && !Fits(disk, need, maxBytes)
    ensures AtTurn(Step(v, Evict(c, ok), sha, maxBytes), c, ch, need, i, todo[1..], if ok then disk - {todo[0]} else disk)
  {
    hide Sum, StepLock, StepRespond, StepBeginWalk, StepVisit, StepEndWalk, StepCopy, StepPublish, StepFinish;
    TotalWithout(disk, todo[0]);
    assert Sizes(disk) - {todo[0]} == Sizes(disk - {todo[0]});
  }

  /** As long as it is not enough, n turns leave what trying the first n files leaves. */
  lemma {:induction false} TurnsAre(w: World, c: Caller, ch: Chan, need: nat, i: nat, order: seq<Path>, stuck: set<Path>, n: nat,
                                    sha: seq<nat> -> Digest, maxBytes: nat)
    requires n <= |order| && OldestFirst(w.disk, order) && AtTurn(w, c, ch, need, i, order, w.disk)
    requires forall m: nat :: m < n ==> !Fits(Left(w.disk, order, stuck, m), need, maxBytes)
    ensures AtTurn(Turns(w, c, order, stuck, n, sha, maxBytes), c, ch, need, i, order[n..], Left(w.disk, order, stuck, n))
  {
    hide Step, Total, OldestFirst, AtTurn, Fits;
    if n == 0 {
      assert order[0..] == order;
    } else {
      TurnsAre(w, c, ch, need, i, order, stuck, n - 1, sha, maxBytes);
      NotYetTried(w.disk, order, stuck, n - 1);
      OneTurn(Turns(w, c, order, stuck, n - 1, sha, maxBytes), c, ch, need, i, order[n - 1..], Left(w.disk, order, stuck, n - 1),
              order[n - 1] !in stuck, sha, maxBytes);
      assert order[n - 1..][1..] == order[n..];
    }
  }

  /** A pass that nobody disturbs does what evictFor does: its outcome is the one of EvictFor. */
  lemma PassAloneEvicts(w: World, c: Caller, ch: Chan, need: nat, i: nat, order: seq<Path>, stuck: set<Path>, n: nat,
                        sha: seq<nat> -> Digest, maxBytes: nat)
    requires OldestFirst(w.disk, order) && AtTurn(w, c, ch, need, i, order, w.disk)
    requires ShortestPrefix(w.disk, order, stuck, need, maxBytes, n)
    ensures var v := Step(Turns(w, c, order, stuck, n, sha, maxBytes), Evict(c, true), sha, maxBytes);
            && c in v.calls && (v.calls[c].pc == Reserved(ch, need, Some(i)) || v.calls[c].pc == Ended(ch, false))
            && Evicts(w.disk, order, stuck, need, maxBytes, v.disk, v.calls[c].pc.Reserved?)
  {
    hide Total, OldestFirst, Turns, StepLock, StepRespond, StepBeginWalk, StepVisit, StepEndWalk, StepCopy, StepPublish, StepFinish;
    TurnsAre(w, c, ch, need, i, order, stuck, n, sha, maxBytes);
    assert n == |order| ==> order[n..] == [];
  }
}
