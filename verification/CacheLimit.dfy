/**
 How far the blob cache can exceed its limit, eviction passes overlapping file
 by file. Among the passes that have ended, look at the one whose walk began
 last: whatever is on the disk it had kept, or it was published since by one
 of the fills that were then between their walk and their publish.
 */
module CacheLimit {
  import opened Basics
  import opened MapSum
  import opened Eviction
  import opened BlobCache

  // --- sums ------------------------------------------------------------------------------------

  function PubSizes(pubs: map<Caller, Pub>): map<Caller, nat> { map g | g in pubs :: pubs[g].size }

  /** A file without bytes, or one the pass has yet to visit, or an entry it holds, or one published since. */
  ghost predicate Accounts(pass: Pass, p: Path, size: nat) {
    || size == 0 || p in pass.left || (p in pass.kept && pass.kept[p] == size)
    || exists g :: g in pass.pubs && pass.pubs[g].path == p && pass.pubs[g].size == size
  }

  ghost predicate Covers(pass: Pass, disk: Disk) { forall p :: p in disk ==> Accounts(pass, p, |disk[p].content|) }

  /** Once its walk is over, what a pass accounts for bounds what is there. */
  lemma {:induction false} CoverBound(pass: Pass, disk: Disk)
    requires Covers(pass, disk) && pass.left == {}
    ensures Total(disk) <= Sum(pass.kept) + Sum(PubSizes(pass.pubs))
    decreases disk
  {
    hide Sum;
    if disk == map[] {
      NoFiles(disk);
    } else {
      var p :| p in disk;
      var size := |disk[p].content|;
      TotalWithout(disk, p);
      assert Accounts(pass, p, size);
      if size == 0 {
        CoverBound(pass, disk - {p});
      } else if p in pass.kept && pass.kept[p] == size {
        SumRemove(pass.kept, p);
        CoverBound(pass.(kept := pass.kept - {p}), disk - {p});
      } else {
        var g :| g in pass.pubs && pass.pubs[g].path == p && pass.pubs[g].size == size;
        var less := pass.(pubs := pass.pubs - {g});
        forall q | q in disk - {p}
          ensures Accounts(less, q, |disk[q].content|)
        {
          AccountsWithout(pass, g, q, |disk[q].content|);
        }
        SumRemove(PubSizes(pass.pubs), g);
        assert PubSizes(pass.pubs) - {g} == PubSizes(less.pubs);
        CoverBound(less, disk - {p});
      }
    }
  }

  lemma AccountsWithout(pass: Pass, g: Caller, q: Path, size: nat)
    requires Accounts(pass, q, size) && g in pass.pubs && pass.pubs[g].path != q
    ensures Accounts(pass.(pubs := pass.pubs - {g}), q, size)
  {
    if h :| h in pass.pubs && pass.pubs[h].path == q && pass.pubs[h].size == size {
      assert h in pass.pubs - {g};
    }
  }

  lemma NoFiles(disk: Disk)
    requires disk == map[]
    ensures Total(disk) == 0
  {
    assert Sizes(disk) == map[];
  }

  /** Sizes of at most k fills, one of which is known. */
  lemma WindowBound(sizes: map<Caller, nat>, window: set<Caller>, c: Caller, need: nat, k: nat, largest: nat)
    requires sizes.Keys <= window && c in window && |window| <= k
    requires (forall g :: g in sizes ==> sizes[g] <= largest) && (c in sizes ==> sizes[c] == need)
    ensures Sum(sizes) <= need + (k - 1) * largest
  {
    hide Sum;
    var others := sizes - {c};
    SumRemove(sizes, c);
    OthersBound(others, window, c, k, largest);
  }

  lemma OthersBound(others: map<Caller, nat>, window: set<Caller>, c: Caller, k: nat, largest: nat)
    requires others.Keys <= window && c !in others && c in window && |window| <= k
    requires forall g :: g in others ==> others[g] <= largest
    ensures Sum(others) <= (k - 1) * largest
  {
    hide Sum;
    SumBound(others, largest);
    Cardinal(others.Keys, window - {c});
    FewerThan(others, window, c);
    MoreTimes(|others|, k - 1, largest);
  }

  lemma FewerThan(others: map<Caller, nat>, window: set<Caller>, c: Caller)
    requires c in window && |others.Keys| <= |window - {c}|
    ensures |others| <= |window| - 1
  {
    assert |others| == |others.Keys|;
  }

  lemma {:induction false} Cardinal(a: set<Caller>, b: set<Caller>)
    requires a <= b
    ensures |a| <= |b|
  {
    if a != {} {
      var x :| x in a;
      Cardinal(a - {x}, b - {x});
    }
  }

  lemma MoreTimes(a: nat, b: nat, x: nat)
    requires a <= b
    ensures a * x <= b * x
  {
  }

  // --- the invariant -----------------------------------------------------------------------------

  ghost predicate Owns(passes: seq<Pass>, i: nat, c: Caller, need: nat) {
    0 < i < |passes| && passes[i].owner == Some(c) && passes[i].need == need
  }

  function PassOf(pc: Pc): nat
    requires InWindow(pc)
  {
    if pc.Walking? || pc.Evicting? then pc.pass else pc.room.value
  }

  function NeedOf(pc: Pc): nat
    requires InWindow(pc)
  {
    if pc.Written? then |pc.content| else pc.need
  }

  ghost predicate Distinct(todo: seq<Path>) { forall i, j :: 0 <= i < j < |todo| ==> todo[i] != todo[j] }

  /** A pass under way holds the entries it has still to try, and its running total is their sum. */
  ghost predicate UnderWay(pc: Pc, pass: Pass) {
    && !pass.done
    && (pc.Evicting? ==> pass.left == {} && pc.total == Sum(pass.kept) && Distinct(pc.todo) && forall p :: p in pc.todo ==> p in pass.kept)
  }

  /** A call between its walk and its publish has its pass, and every pass begun since counts it. */
  ghost predicate CallOk(c: Caller, pc: Pc, passes: seq<Pass>) {
    if InWindow(pc) then
      && Owns(passes, PassOf(pc), c, NeedOf(pc))
      && (forall i :: PassOf(pc) <= i < |passes| ==> c in passes[i].window)
      && (if pc.Walking? || pc.Evicting? then UnderWay(pc, passes[PassOf(pc)]) else passes[PassOf(pc)].done)
    else !pc.Unbounded? && (pc.Reserved? ==> pc.need == 0) && (pc.Written? ==> pc.content == [])
  }

  ghost predicate CallsOk(calls: map<Caller, Call>, passes: seq<Pass>) {
    forall c :: c in calls ==> CallOk(c, calls[c].pc, passes)
  }

  /** An ended pass left room for its object; a pass counted at most k fills, its own included. */
  ghost predicate PassOk(pass: Pass, first: bool, maxBytes: nat, k: nat, largest: nat) {
    && (pass.done ==> pass.left == {} && Sum(pass.kept) + pass.need <= maxBytes)
    && (if first then pass.done && pass.need == 0
        else pass.owner.Some? && pass.owner.value in pass.window && |pass.window| <= k && pass.need <= largest)
  }

  ghost predicate PassesOk(passes: seq<Pass>, maxBytes: nat, k: nat, largest: nat) {
    |passes| > 0 && forall i :: 0 <= i < |passes| ==> PassOk(passes[i], i == 0, maxBytes, k, largest)
  }

  /** What was published since a pass began comes from a fill whose pass has ended, and which it counted unless
      that fill's own walk began later. */
  ghost predicate PubOk(passes: seq<Pass>, i: nat, g: Caller, u: Pub)
    requires i < |passes|
  {
    Owns(passes, u.pass, g, u.size) && passes[u.pass].done && (u.pass <= i ==> g in passes[i].window)
  }

  ghost predicate PubsOk(passes: seq<Pass>) {
    forall i, g :: 0 <= i < |passes| && g in passes[i].pubs ==> PubOk(passes, i, g, passes[i].pubs[g])
  }

  /** Who has published is done filling. */
  ghost predicate Settled(calls: map<Caller, Call>, passes: seq<Pass>) {
    forall i, g :: 0 <= i < |passes| && g in passes[i].pubs ==> g in calls && (calls[g].pc.Ended? || calls[g].pc.Returned?)
  }

  /** A call makes one pass, and once it has left its window it is done filling. */
  ghost predicate OwnersOnce(passes: seq<Pass>) {
    forall i, j :: 0 < i < j < |passes| ==> passes[i].owner != passes[j].owner
  }

  ghost predicate OwnersPlaced(calls: map<Caller, Call>, passes: seq<Pass>) {
    forall i :: 0 < i < |passes| && passes[i].owner.Some? ==>
      && passes[i].owner.value in calls
      && var pc := calls[passes[i].owner.value].pc; InWindow(pc) || pc.Ended? || pc.Returned?
  }

  ghost predicate AllCover(passes: seq<Pass>, disk: Disk) { forall i :: 0 <= i < |passes| ==> Covers(passes[i], disk) }

  ghost predicate Inv(w: World, maxBytes: nat, k: nat, largest: nat) {
    && AllCover(w.passes, w.disk) && CallsOk(w.calls, w.passes) && PassesOk(w.passes, maxBytes, k, largest)
    && PubsOk(w.passes) && Settled(w.calls, w.passes) && OwnersOnce(w.passes) && OwnersPlaced(w.calls, w.passes)
  }

  // --- the bound -----------------------------------------------------------------------------------

  /** The pass that began last among those that have ended. */
  lemma {:induction false} LastEnded(passes: seq<Pass>, n: nat) returns (i: nat)
    requires 0 < n <= |passes| && passes[0].done
    ensures i < n && passes[i].done && forall j :: i < j < n ==> !passes[j].done
  {
    if n == 1 || passes[n - 1].done {
      i := n - 1;
    } else {
      i := LastEnded(passes, n - 1);
    }
  }

  lemma PubsBound(passes: seq<Pass>, i: nat, maxBytes: nat, k: nat, largest: nat)
    requires PassesOk(passes, maxBytes, k, largest) && PubsOk(passes) && OwnersOnce(passes) && k > 0
    requires i < |passes| && passes[i].done && forall j :: i < j < |passes| ==> !passes[j].done
    ensures Sum(PubSizes(passes[i].pubs)) <= passes[i].need + (k - 1) * largest
  {
    hide Sum;
    var pass := passes[i];
    var sizes := PubSizes(pass.pubs);
    forall g | g in pass.pubs
      ensures i > 0 && g in pass.window && sizes[g] <= largest && (pass.owner == Some(g) ==> sizes[g] == pass.need)
    {
      var u := pass.pubs[g];
      assert PubOk(passes, i, g, u);
      assert PassOk(passes[u.pass], false, maxBytes, k, largest);
      assert pass.owner == Some(g) && i > 0 ==> u.pass == i;
    }
    if i == 0 {
      assert pass.pubs == map[];
      NoPubs(pass);
      assert (k - 1) * largest >= 0;
    } else {
      assert PassOk(pass, false, maxBytes, k, largest);
      WindowBound(sizes, pass.window, pass.owner.value, pass.need, k, largest);
    }
  }

  lemma NoPubs(pass: Pass)
    requires pass.pubs == map[]
    ensures Sum(PubSizes(pass.pubs)) == 0
  {
    assert PubSizes(pass.pubs) == map[];
  }

  lemma InvBound(w: World, maxBytes: nat, k: nat, largest: nat)
    requires Inv(w, maxBytes, k, largest) && k > 0
    ensures Total(w.disk) <= maxBytes + (k - 1) * largest
  {
    hide Sum, Covers, PubsOk, CallsOk, Settled, OwnersPlaced, OwnersOnce, Total;
    assert PassOk(w.passes[0], true, maxBytes, k, largest);
    var i := LastEnded(w.passes, |w.passes|);
    assert PassOk(w.passes[i], i == 0, maxBytes, k, largest);
    PubsBound(w.passes, i, maxBytes, k, largest);
    CoverBound(w.passes[i], w.disk);
  }

  // --- every step keeps the invariant -----------------------------------------------------------------

  /** Lengths are known. */
  predicate KnownLength(e: Event) { e.Respond? ==> e.length.Some? }

  /** At most k fills are between their walk and their publish, none larger than the largest. */
  ghost predicate FewFills(calls: map<Caller, Call>, k: nat, largest: nat) {
    |Window(calls)| <= k && forall c :: c in Window(calls) ==> NeedOf(calls[c].pc) <= largest
  }

  ghost predicate Orderly(w: World, es: seq<Event>, sha: seq<nat> -> Digest, maxBytes: nat, k: nat, largest: nat) {
    && (es != [] ==> Orderly(w, es[..|es| - 1], sha, maxBytes, k, largest) && KnownLength(es[|es| - 1]))
    && FewFills(Run(w, es, sha, maxBytes).calls, k, largest)
  }

  /** A call moves, and the passes stay. */
  lemma MoveCall(calls: map<Caller, Call>, passes: seq<Pass>, c: Caller, call: Call)
    requires CallsOk(calls, passes) && Settled(calls, passes) && OwnersPlaced(calls, passes)
    requires CallOk(c, call.pc, passes)
    requires c in calls && (InWindow(calls[c].pc) || calls[c].pc.Ended? || calls[c].pc.Returned?) ==>
               InWindow(call.pc) || call.pc.Ended? || call.pc.Returned?
    requires c in calls && (calls[c].pc.Ended? || calls[c].pc.Returned?) ==> call.pc.Ended? || call.pc.Returned?
    ensures CallsOk(calls[c := call], passes) && Settled(calls[c := call], passes) && OwnersPlaced(calls[c := call], passes)
  {
    hide CallOk;
  }

  lemma SameSizes(passes: seq<Pass>, disk: Disk, other: Disk)
    requires AllCover(passes, disk) && forall p :: p in other ==> p in disk && |other[p].content| == |disk[p].content|
    ensures AllCover(passes, other)
  {
    hide Accounts;
    forall i, p | 0 <= i < |passes| && p in other
      ensures Accounts(passes[i], p, |other[p].content|)
    {
      assert Covers(passes[i], disk);
    }
  }

  lemma QuietKeeps(w: World, e: Event, sha: seq<nat> -> Digest, maxBytes: nat, k: nat, largest: nat)
    requires Inv(w, maxBytes, k, largest) && !InFill(e)
    ensures Inv(Step(w, e, sha, maxBytes), maxBytes, k, largest)
  {
    hide AllCover, PassesOk, PubsOk, OwnersOnce, CallsOk, Settled, OwnersPlaced;
    var v := Step(w, e, sha, maxBytes);
    SameSizes(w.passes, w.disk, v.disk);
    if e.Tick? || e.Touch? {
    } else if v.calls != w.calls {
      OldCall(w, e.c);
      MoveCall(w.calls, w.passes, e.c, v.calls[e.c]);
      assert v.calls == w.calls[e.c := v.calls[e.c]];
    }
  }

  lemma OldCall(w: World, c: Caller)
    requires CallsOk(w.calls, w.passes)
    ensures c in w.calls ==> CallOk(c, w.calls[c].pc, w.passes)
  {
  }

  lemma RespondKeeps(w: World, c: Caller, ok: bool, length: Option<nat>, maxBytes: nat, k: nat, largest: nat)
    requires Inv(w, maxBytes, k, largest) && length.Some?
    ensures Inv(StepRespond(w, c, ok, length), maxBytes, k, largest)
  {
    hide AllCover, PassesOk, PubsOk, OwnersOnce, CallsOk, Settled, OwnersPlaced;
    var v := StepRespond(w, c, ok, length);
    if v != w {
      MoveCall(w.calls, w.passes, c, v.calls[c]);
    }
  }

  lemma EndWalkKeeps(w: World, c: Caller, order: seq<Path>, maxBytes: nat, k: nat, largest: nat)
    requires Inv(w, maxBytes, k, largest)
    ensures Inv(StepEndWalk(w, c, order), maxBytes, k, largest)
  {
    hide AllCover, PassesOk, PubsOk, OwnersOnce, CallsOk, Settled, OwnersPlaced, Sum;
    var v := StepEndWalk(w, c, order);
    if v != w {
      OldCall(w, c);
      MoveCall(w.calls, w.passes, c, v.calls[c]);
    }
  }

  lemma CopyKeeps(w: World, c: Caller, ok: bool, content: seq<nat>, maxBytes: nat, k: nat, largest: nat)
    requires Inv(w, maxBytes, k, largest)
    ensures Inv(StepCopy(w, c, ok, content), maxBytes, k, largest)
  {
    hide AllCover, PassesOk, PubsOk, OwnersOnce, CallsOk, Settled, OwnersPlaced;
    var v := StepCopy(w, c, ok, content);
    if v != w {
      OldCall(w, c);
      MoveCall(w.calls, w.passes, c, v.calls[c]);
    }
  }

  /** A pass begins: it counts whoever is between walk and publish, and has everything to visit. */
  lemma PassBegins(passes: seq<Pass>, disk: Disk, pass: Pass, maxBytes: nat, k: nat, largest: nat)
    requires AllCover(passes, disk) && PassesOk(passes, maxBytes, k, largest) && PubsOk(passes)
    requires pass.left == disk.Keys && pass.pubs == map[] && !pass.done && PassOk(pass, false, maxBytes, k, largest)
    ensures AllCover(passes + [pass], disk) && PassesOk(passes + [pass], maxBytes, k, largest) && PubsOk(passes + [pass])
  {
    hide Sum;
    var more := passes + [pass];
    forall i, g | 0 <= i < |more| && g in more[i].pubs
      ensures PubOk(more, i, g, more[i].pubs[g])
    {
      assert PubOk(passes, i, g, passes[i].pubs[g]);
    }
    forall i | 0 <= i < |more|
      ensures PassOk(more[i], i == 0, maxBytes, k, largest) && Covers(more[i], disk)
    {
      if i < |passes| {
        assert PassOk(passes[i], i == 0, maxBytes, k, largest) && Covers(passes[i], disk);
      }
    }
  }

  lemma WalkerEnters(calls: map<Caller, Call>, passes: seq<Pass>, c: Caller, call: Call, pass: Pass)
    requires CallsOk(calls, passes) && Settled(calls, passes) && OwnersPlaced(calls, passes) && OwnersOnce(passes)
    requires c in calls && calls[c].pc.Sized? && |passes| > 0
    requires pass.owner == Some(c) && pass.window == Window(calls) + {c} && pass.pubs == map[] && !pass.done
    requires call.pc.Walking? && call.pc.pass == |passes| && call.pc.need == pass.need
    ensures var more, moved := passes + [pass], calls[c := call];
            CallsOk(moved, more) && Settled(moved, more) && OwnersPlaced(moved, more) && OwnersOnce(more)
  {
    hide Sum;
    var more, moved := passes + [pass], calls[c := call];
    forall d | d in moved
      ensures CallOk(d, moved[d].pc, more)
    {
      if d != c {
        assert CallOk(d, calls[d].pc, passes);
      }
    }
  }

  lemma WindowGrows(calls: map<Caller, Call>, c: Caller, call: Call)
    requires c in calls && InWindow(call.pc)
    ensures Window(calls[c := call]) == Window(calls) + {c}
  {
  }

  lemma BeginWalkKeeps(w: World, c: Caller, maxBytes: nat, k: nat, largest: nat)
    requires Inv(w, maxBytes, k, largest) && FewFills(StepBeginWalk(w, c).calls, k, largest)
    ensures Inv(StepBeginWalk(w, c), maxBytes, k, largest)
  {
    hide Sum, AllCover, PubsOk, OwnersOnce, CallsOk, Settled, OwnersPlaced, Window;
    var v := StepBeginWalk(w, c);
    if v != w {
      var pass := v.passes[|w.passes|];
      WindowGrows(w.calls, c, v.calls[c]);
      assert NeedOf(v.calls[c].pc) <= largest;
      PassBegins(w.passes, w.disk, pass, maxBytes, k, largest);
      WalkerEnters(w.calls, w.passes, c, v.calls[c], pass);
    }
  }

  /** One pass changes what it holds: its owner, its counts and its history stay. */
  ghost predicate SamePass(a: Pass, b: Pass) {
    b.owner == a.owner && b.need == a.need && b.window == a.window && b.pubs == a.pubs && (a.done ==> b.done)
  }

  lemma PassChanges(calls: map<Caller, Call>, passes: seq<Pass>, i: nat, pass: Pass, c: Caller)
    requires CallsOk(calls, passes) && PubsOk(passes) && Settled(calls, passes) && OwnersPlaced(calls, passes) && OwnersOnce(passes)
    requires 0 < i < |passes| && SamePass(passes[i], pass) && passes[i].owner == Some(c)
    ensures forall d :: d in calls && d != c ==> CallOk(d, calls[d].pc, passes[i := pass])
    ensures PubsOk(passes[i := pass]) && Settled(calls, passes[i := pass]) && OwnersPlaced(calls, passes[i := pass])
    ensures OwnersOnce(passes[i := pass])
  {
    hide Sum;
    var now := passes[i := pass];
    forall d | d in calls && d != c
      ensures CallOk(d, calls[d].pc, now)
    {
      assert CallOk(d, calls[d].pc, passes);
    }
    forall j, g | 0 <= j < |now| && g in now[j].pubs
      ensures PubOk(now, j, g, now[j].pubs[g])
    {
      assert PubOk(passes, j, g, passes[j].pubs[g]);
    }
  }

  /** The call of the pass's owner moves with it. */
  lemma OwnerMoves(calls: map<Caller, Call>, now: seq<Pass>, c: Caller, call: Call)
    requires forall d :: d in calls && d != c ==> CallOk(d, calls[d].pc, now)
    requires Settled(calls, now) && OwnersPlaced(calls, now) && CallOk(c, call.pc, now)
    requires c in calls && InWindow(calls[c].pc) && (InWindow(call.pc) || call.pc.Ended?)
    ensures var moved := calls[c := call]; CallsOk(moved, now) && Settled(moved, now) && OwnersPlaced(moved, now)
  {
    hide CallOk;
  }

  lemma PassesChange(passes: seq<Pass>, i: nat, pass: Pass, maxBytes: nat, k: nat, largest: nat)
    requires PassesOk(passes, maxBytes, k, largest) && 0 < i < |passes| && SamePass(passes[i], pass)
    requires pass.done ==> pass.left == {} && Sum(pass.kept) + pass.need <= maxBytes
    ensures PassesOk(passes[i := pass], maxBytes, k, largest)
  {
    hide Sum;
    var now := passes[i := pass];
    forall j | 0 <= j < |now|
      ensures PassOk(now[j], j == 0, maxBytes, k, largest)
    {
      assert PassOk(passes[j], j == 0, maxBytes, k, largest);
    }
  }

  lemma CoverChanges(passes: seq<Pass>, i: nat, pass: Pass, disk: Disk)
    requires AllCover(passes, disk) && i < |passes| && Covers(pass, disk)
    ensures AllCover(passes[i := pass], disk)
  {
    hide Covers;
  }

  lemma VisitCovers(pass: Pass, disk: Disk, p: Path)
    requires Covers(pass, disk)
    ensures Covers(Visited(pass, disk, p), disk)
  {
    forall q | q in disk
      ensures Accounts(Visited(pass, disk, p), q, |disk[q].content|)
    {
      assert Accounts(pass, q, |disk[q].content|);
    }
  }

  lemma VisitKeeps(w: World, c: Caller, p: Path, maxBytes: nat, k: nat, largest: nat)
    requires Inv(w, maxBytes, k, largest)
    ensures Inv(StepVisit(w, c, p), maxBytes, k, largest)
  {
    hide Sum, AllCover, Covers, PassesOk, PubsOk, OwnersOnce, CallsOk, Settled, OwnersPlaced;
    var v := StepVisit(w, c, p);
    if c in w.calls && w.calls[c].pc.Walking? {
      OldCall(w, c);
      var i := w.calls[c].pc.pass;
      var pass := v.passes[i];
      CoverOf(w.passes, i, w.disk);
      VisitCovers(w.passes[i], w.disk, p);
      CoverChanges(w.passes, i, pass, w.disk);
      PassesChange(w.passes, i, pass, maxBytes, k, largest);
      PassChanges(w.calls, w.passes, i, pass, c);
      OwnerMoves(w.calls, v.passes, c, w.calls[c]);
      assert w.calls[c := w.calls[c]] == w.calls;
    }
  }

  lemma CoverOf(passes: seq<Pass>, i: nat, disk: Disk)
    requires AllCover(passes, disk) && i < |passes|
    ensures Covers(passes[i], disk)
  {
  }

  lemma EvictEnds(w: World, c: Caller, maxBytes: nat, k: nat, largest: nat)
    requires Inv(w, maxBytes, k, largest) && c in w.calls && w.calls[c].pc.Evicting?
    requires w.calls[c].pc.total + w.calls[c].pc.need <= maxBytes
    ensures Inv(StepEvict(w, c, true, maxBytes), maxBytes, k, largest)
  {
    hide Sum, AllCover, Covers, PassesOk, PubsOk, OwnersOnce, CallsOk, Settled, OwnersPlaced;
    OldCall(w, c);
    var i := w.calls[c].pc.pass;
    var pass := w.passes[i].(done := true);
    var v := StepEvict(w, c, true, maxBytes);
    CoverOf(w.passes, i, w.disk);
    DoneCovers(w.passes[i], w.disk);
    CoverChanges(w.passes, i, pass, w.disk);
    PassesChange(w.passes, i, pass, maxBytes, k, largest);
    PassChanges(w.calls, w.passes, i, pass, c);
    OwnerMoves(w.calls, v.passes, c, v.calls[c]);
  }

  lemma DoneCovers(pass: Pass, disk: Disk)
    requires Covers(pass, disk)
    ensures Covers(pass.(done := true), disk)
  {
    forall q | q in disk
      ensures Accounts(pass.(done := true), q, |disk[q].content|)
    {
      assert Accounts(pass, q, |disk[q].content|);
    }
  }

  lemma RemoveCovers(pass: Pass, disk: Disk, p: Path)
    requires Covers(pass, disk)
    ensures Covers(pass.(kept := pass.kept - {p}), disk - {p})
  {
    forall q | q in disk - {p}
      ensures Accounts(pass.(kept := pass.kept - {p}), q, |disk[q].content|)
    {
      assert Accounts(pass, q, |disk[q].content|);
    }
  }

  lemma EvictRemoves(w: World, c: Caller, maxBytes: nat, k: nat, largest: nat)
    requires Inv(w, maxBytes, k, largest) && c in w.calls && w.calls[c].pc.Evicting?
    requires w.calls[c].pc.total + w.calls[c].pc.need > maxBytes && w.calls[c].pc.todo != [] && w.calls[c].pc.todo[0] in w.disk
    ensures Inv(StepEvict(w, c, true, maxBytes), maxBytes, k, largest)
  {
    hide Sum, AllCover, Covers, PassesOk, PubsOk, OwnersOnce, CallsOk, Settled, OwnersPlaced;
    OldCall(w, c);
    var pc := w.calls[c].pc;
    var i, p := pc.pass, pc.todo[0];
    var pass := w.passes[i].(kept := w.passes[i].kept - {p});
    var v := StepEvict(w, c, true, maxBytes);
    SameSizes(w.passes, w.disk, v.disk);
    CoverOf(w.passes, i, w.disk);
    RemoveCovers(w.passes[i], w.disk, p);
    CoverChanges(w.passes, i, pass, v.disk);
    PassesChange(w.passes, i, pass, maxBytes, k, largest);
    PassChanges(w.calls, w.passes, i, pass, c);
    SumRemove(w.passes[i].kept, p);
    TodoShrinks(pc.todo, w.passes[i].kept);
    OwnerMoves(w.calls, v.passes, c, v.calls[c]);
  }

  lemma TodoShrinks(todo: seq<Path>, kept: map<Path, nat>)
    requires todo != [] && Distinct(todo) && forall p :: p in todo ==> p in kept
    ensures Distinct(todo[1..]) && forall p :: p in todo[1..] ==> p in kept - {todo[0]}
    ensures forall p :: p in todo[1..] ==> p in kept
  {
  }

  lemma EvictKeeps(w: World, c: Caller, removable: bool, maxBytes: nat, k: nat, largest: nat)
    requires Inv(w, maxBytes, k, largest)
    ensures Inv(StepEvict(w, c, removable, maxBytes), maxBytes, k, largest)
  {
    hide Sum, AllCover, PassesOk, PubsOk, OwnersOnce, CallsOk, Settled, OwnersPlaced;
    if c in w.calls && w.calls[c].pc.Evicting? {
      OldCall(w, c);
      var pc := w.calls[c].pc;
      var v := StepEvict(w, c, removable, maxBytes);
      if pc.total + pc.need <= maxBytes {
        EvictEnds(w, c, maxBytes, k, largest);
      } else if pc.todo == [] {
        MoveCall(w.calls, w.passes, c, v.calls[c]);
      } else if removable && pc.todo[0] in w.disk {
        EvictRemoves(w, c, maxBytes, k, largest);
      } else {
        TodoShrinks(pc.todo, w.passes[pc.pass].kept);
        MoveCall(w.calls, w.passes, c, v.calls[c]);
      }
    }
  }

  // --- publishing --------------------------------------------------------------------------------------

  lemma ToldCovers(pass: Pass, disk: Disk, c: Caller, u: Pub, f: File)
    requires Covers(pass, disk) && c !in pass.pubs && u.size == |f.content|
    ensures Covers(pass.(pubs := pass.pubs[c := u]), disk[u.path := f])
  {
    var told, more := pass.(pubs := pass.pubs[c := u]), disk[u.path := f];
    forall q | q in more
      ensures Accounts(told, q, |more[q].content|)
    {
      if q == u.path {
        assert c in told.pubs;
      } else {
        assert Accounts(pass, q, |disk[q].content|);
        if g :| g in pass.pubs && pass.pubs[g].path == q && pass.pubs[g].size == |disk[q].content| {
          assert g in told.pubs && told.pubs[g] == pass.pubs[g];
        }
      }
    }
  }

  lemma ToldPasses(calls: map<Caller, Call>, passes: seq<Pass>, c: Caller, path: Path, size: nat, j: nat,
                   maxBytes: nat, k: nat, largest: nat)
    requires CallsOk(calls, passes) && PassesOk(passes, maxBytes, k, largest) && PubsOk(passes) && OwnersOnce(passes)
    requires c in calls && calls[c].pc.Written? && calls[c].pc.room == Some(j) && |calls[c].pc.content| == size
    ensures var told := Tell(passes, c, path, size, Some(j));
            CallsOk(calls, told) && PassesOk(told, maxBytes, k, largest) && PubsOk(told) && OwnersOnce(told)
  {
    hide Sum;
    var told := Tell(passes, c, path, size, Some(j));
    assert CallOk(c, calls[c].pc, passes);
    forall d | d in calls
      ensures CallOk(d, calls[d].pc, told)
    {
      assert CallOk(d, calls[d].pc, passes);
    }
    forall i, g | 0 <= i < |told| && g in told[i].pubs
      ensures PubOk(told, i, g, told[i].pubs[g])
    {
      if g != c {
        assert PubOk(passes, i, g, passes[i].pubs[g]);
      }
    }
    forall i | 0 <= i < |told|
      ensures PassOk(told[i], i == 0, maxBytes, k, largest)
    {
      assert PassOk(passes[i], i == 0, maxBytes, k, largest);
    }
  }

  lemma ToldSettled(calls: map<Caller, Call>, passes: seq<Pass>, c: Caller, path: Path, size: nat, j: nat, call: Call)
    requires Settled(calls, passes) && OwnersPlaced(calls, passes) && call.pc.Ended?
    ensures var told, moved := Tell(passes, c, path, size, Some(j)), calls[c := call];
            Settled(moved, told) && OwnersPlaced(moved, told)
  {
  }

  lemma EndCall(calls: map<Caller, Call>, passes: seq<Pass>, c: Caller, call: Call)
    requires CallsOk(calls, passes) && call.pc.Ended?
    ensures CallsOk(calls[c := call], passes)
  {
    hide CallOk;
    EndedIsOk(c, call.pc, passes);
  }

  lemma EndedIsOk(c: Caller, pc: Pc, passes: seq<Pass>)
    requires pc.Ended?
    ensures CallOk(c, pc, passes)
  {
  }

  lemma NewFile(w: World, c: Caller, sha: seq<nat> -> Digest, maxBytes: nat, k: nat, largest: nat)
    requires Inv(w, maxBytes, k, largest) && c in w.calls && w.calls[c].pc.Written?
    ensures var path, pc := w.calls[c].path, w.calls[c].pc;
            var told := Tell(w.passes, c, path, |pc.content|, pc.room);
            Inv(SetPc(w.(disk := w.disk[path := File(pc.content, w.now)], passes := told), c, Ended(pc.ch, true)), maxBytes, k, largest)
  {
    hide Sum, PassesOk, PubsOk, OwnersOnce, CallsOk, Settled, OwnersPlaced, Covers;
    var path, pc := w.calls[c].path, w.calls[c].pc;
    var f := File(pc.content, w.now);
    var call := w.calls[c].(pc := Ended(pc.ch, true));
    OldCall(w, c);
    if pc.room.None? {
      EmptyCovers(w.passes, w.disk, path, f);
      MoveCall(w.calls, w.passes, c, call);
    } else {
      var j := pc.room.value;
      var told := Tell(w.passes, c, path, |pc.content|, pc.room);
      ToldPasses(w.calls, w.passes, c, path, |pc.content|, j, maxBytes, k, largest);
      EndCall(w.calls, told, c, call);
      ToldSettled(w.calls, w.passes, c, path, |pc.content|, j, call);
      forall i | 0 <= i < |told|
        ensures Covers(told[i], w.disk[path := f])
      {
        NotPublished(w.calls, w.passes, i, c);
        ToldCovers(w.passes[i], w.disk, c, Pub(path, |pc.content|, j), f);
      }
    }
  }

  lemma NotPublished(calls: map<Caller, Call>, passes: seq<Pass>, i: nat, c: Caller)
    requires Settled(calls, passes) && i < |passes| && c in calls && calls[c].pc.Written?
    ensures c !in passes[i].pubs
  {
  }

  lemma EmptyCovers(passes: seq<Pass>, disk: Disk, path: Path, f: File)
    requires AllCover(passes, disk) && f.content == []
    ensures AllCover(passes, disk[path := f])
  {
    var more := disk[path := f];
    forall i, p | 0 <= i < |passes| && p in more
      ensures Accounts(passes[i], p, |more[p].content|)
    {
      assert Covers(passes[i], disk);
    }
  }

  lemma PublishKeeps(w: World, c: Caller, ok: bool, sha: seq<nat> -> Digest, maxBytes: nat, k: nat, largest: nat)
    requires Inv(w, maxBytes, k, largest)
    ensures Inv(StepPublish(w, c, ok, sha), maxBytes, k, largest)
  {
    hide Sum, AllCover, PassesOk, PubsOk, OwnersOnce, CallsOk, Settled, OwnersPlaced, BlobDigest, Tell;
    if c in w.calls && w.calls[c].pc.Written? {
      NewFile(w, c, sha, maxBytes, k, largest);
      MoveCall(w.calls, w.passes, c, w.calls[c].(pc := Ended(w.calls[c].pc.ch, false)));
    }
  }

  lemma StepKeeps(w: World, e: Event, sha: seq<nat> -> Digest, maxBytes: nat, k: nat, largest: nat)
    requires Inv(w, maxBytes, k, largest) && KnownLength(e) && FewFills(Step(w, e, sha, maxBytes).calls, k, largest)
    ensures Inv(Step(w, e, sha, maxBytes), maxBytes, k, largest)
  {
    hide Inv, FewFills, StepLock, StepFinish, StepRespond, StepBeginWalk, StepVisit, StepEndWalk, StepEvict, StepCopy, StepPublish;
    if !InFill(e) {
      QuietKeeps(w, e, sha, maxBytes, k, largest);
    } else {
      match e
      case Respond(c, ok, length) => RespondKeeps(w, c, ok, length, maxBytes, k, largest);
      case BeginWalk(c) => BeginWalkKeeps(w, c, maxBytes, k, largest);
      case Visit(c, p) => VisitKeeps(w, c, p, maxBytes, k, largest);
      case EndWalk(c, order) => EndWalkKeeps(w, c, order, maxBytes, k, largest);
      case Evict(c, removable) => EvictKeeps(w, c, removable, maxBytes, k, largest);
      case Copy(c, ok, content) => CopyKeeps(w, c, ok, content, maxBytes, k, largest);
      case Publish(c, ok) => PublishKeeps(w, c, ok, sha, maxBytes, k, largest);
      case _ =>
    }
  }

  lemma StartsWell(w: World, maxBytes: nat, k: nat, largest: nat)
    requires Init(w) && Total(w.disk) <= maxBytes
    ensures Inv(w, maxBytes, k, largest)
  {
    hide Sum;
  }

  lemma {:induction false} RunKeeps(w: World, es: seq<Event>, sha: seq<nat> -> Digest, maxBytes: nat, k: nat, largest: nat)
    requires Init(w) && Total(w.disk) <= maxBytes && Orderly(w, es, sha, maxBytes, k, largest)
    ensures Inv(Run(w, es, sha, maxBytes), maxBytes, k, largest)
  {
    hide Step, Inv, Init, Total, FewFills;
    if es == [] {
      StartsWell(w, maxBytes, k, largest);
    } else {
      RunKeeps(w, es[..|es| - 1], sha, maxBytes, k, largest);
      StepKeeps(Run(w, es[..|es| - 1], sha, maxBytes), es[|es| - 1], sha, maxBytes, k, largest);
    }
  }

  /**
   With known lengths and at most k fills at once between the start of their
   walk and their publish, the cache exceeds its limit by at most k - 1 of the
   largest objects, however the passes overlap; with one such fill at a time
   it never exceeds the limit.
   */
  lemma CacheStaysWithinLimit(w: World, es: seq<Event>, sha: seq<nat> -> Digest, maxBytes: nat, k: nat, largest: nat)
    requires k > 0 && Init(w) && Total(w.disk) <= maxBytes && Orderly(w, es, sha, maxBytes, k, largest)
    ensures Total(Run(w, es, sha, maxBytes).disk) <= maxBytes + (k - 1) * largest
    ensures k == 1 ==> Total(Run(w, es, sha, maxBytes).disk) <= maxBytes
  {
    hide Orderly, Run, Total, Sum, Init, Inv;
    RunKeeps(w, es, sha, maxBytes, k, largest);
    InvBound(Run(w, es, sha, maxBytes), maxBytes, k, largest);
  }
}
