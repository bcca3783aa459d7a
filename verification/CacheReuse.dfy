/** When the blob cache downloads a file again that it already has. */
module CacheReuse {
  import opened Basics
  import opened Eviction
  import opened BlobCache

  /** The n-th event of the run removes the file at p. */
  ghost predicate RemovedAt(w: World, es: seq<Event>, sha: seq<nat> -> Digest, maxBytes: nat, p: Path, n: nat)
    requires n < |es|
  {
    p in Run(w, es[..n], sha, maxBytes).disk && p !in Run(w, es[..n + 1], sha, maxBytes).disk
  }

  ghost predicate PublishedAt(w: World, es: seq<Event>, sha: seq<nat> -> Digest, maxBytes: nat, p: Path, n: nat)
    requires n < |es|
  {
    Publishes(Run(w, es[..n], sha, maxBytes), es[n], sha, maxBytes, p)
  }

  /** Since the i-th event the file was published and has not been removed since. */
  ghost predicate PublishedSince(w: World, es: seq<Event>, sha: seq<nat> -> Digest, maxBytes: nat, p: Path, i: nat) {
    exists n: nat :: i <= n < |es| && PublishedAt(w, es, sha, maxBytes, p, n)
                     && forall m: nat :: n < m < |es| ==> !RemovedAt(w, es, sha, maxBytes, p, m)
  }

  lemma PublishAdds(w: World, e: Event, sha: seq<nat> -> Digest, maxBytes: nat, p: Path)
    requires Publishes(w, e, sha, maxBytes, p)
    ensures p in Step(w, e, sha, maxBytes).disk
  {
    hide BlobDigest, Tell;
  }

  lemma SamePrefix(w: World, es: seq<Event>, sha: seq<nat> -> Digest, maxBytes: nat, p: Path, n: nat)
    requires n + 1 < |es|
    ensures var front := es[..|es| - 1];
            && (PublishedAt(w, front, sha, maxBytes, p, n) <==> PublishedAt(w, es, sha, maxBytes, p, n))
            && (RemovedAt(w, front, sha, maxBytes, p, n) <==> RemovedAt(w, es, sha, maxBytes, p, n))
  {
    var front := es[..|es| - 1];
    assert front[..n] == es[..n] && front[..n + 1] == es[..n + 1] && front[n] == es[n];
  }

  lemma SinceGrows(w: World, es: seq<Event>, sha: seq<nat> -> Digest, maxBytes: nat, p: Path, i: nat)
    requires es != [] && PublishedSince(w, es[..|es| - 1], sha, maxBytes, p, i) && !RemovedAt(w, es, sha, maxBytes, p, |es| - 1)
    ensures PublishedSince(w, es, sha, maxBytes, p, i)
  {
    hide PublishedAt, RemovedAt;
    var front := es[..|es| - 1];
    var n: nat :| i <= n < |front| && PublishedAt(w, front, sha, maxBytes, p, n)
                  && forall m: nat :: n < m < |front| ==> !RemovedAt(w, front, sha, maxBytes, p, m);
    SamePrefix(w, es, sha, maxBytes, p, n);
    forall m: nat | n < m < |es|
      ensures !RemovedAt(w, es, sha, maxBytes, p, m)
    {
      if m < |front| {
        SamePrefix(w, es, sha, maxBytes, p, m);
      }
    }
  }

  lemma SinceShrinks(w: World, es: seq<Event>, sha: seq<nat> -> Digest, maxBytes: nat, p: Path, i: nat)
    requires es != [] && PublishedSince(w, es, sha, maxBytes, p, i) && !PublishedAt(w, es, sha, maxBytes, p, |es| - 1)
    ensures PublishedSince(w, es[..|es| - 1], sha, maxBytes, p, i) && !RemovedAt(w, es, sha, maxBytes, p, |es| - 1)
  {
    hide PublishedAt, RemovedAt;
    var front := es[..|es| - 1];
    var n: nat :| i <= n < |es| && PublishedAt(w, es, sha, maxBytes, p, n)
                  && forall m: nat :: n < m < |es| ==> !RemovedAt(w, es, sha, maxBytes, p, m);
    SamePrefix(w, es, sha, maxBytes, p, n);
    forall m: nat | n < m < |front|
      ensures !RemovedAt(w, front, sha, maxBytes, p, m)
    {
      SamePrefix(w, es, sha, maxBytes, p, m);
    }
  }

  lemma SinceNow(w: World, es: seq<Event>, sha: seq<nat> -> Digest, maxBytes: nat, p: Path, i: nat)
    requires i < |es| && PublishedAt(w, es, sha, maxBytes, p, |es| - 1)
    ensures PublishedSince(w, es, sha, maxBytes, p, i)
  {
    hide PublishedAt, RemovedAt;
  }

  /** From a moment when the file was not there, it is there exactly if it was published since and not removed since. */
  lemma {:induction false} CachedExactly(w: World, es: seq<Event>, sha: seq<nat> -> Digest, maxBytes: nat, p: Path, i: nat)
    requires i <= |es| && p !in Run(w, es[..i], sha, maxBytes).disk
    ensures p in Run(w, es, sha, maxBytes).disk <==> PublishedSince(w, es, sha, maxBytes, p, i)
  {
    hide Run, Step, Publishes;
    if i == |es| {
      assert es[..i] == es;
    } else {
      hide PublishedSince;
      var front, last := es[..|es| - 1], |es| - 1;
      var v := Run(w, front, sha, maxBytes);
      assert front[..i] == es[..i] && es[..last] == front && es[..last + 1] == es;
      CachedExactly(w, front, sha, maxBytes, p, i);
      RunLast(w, es, sha, maxBytes);
      if PublishedAt(w, es, sha, maxBytes, p, last) {
        PublishAdds(v, es[last], sha, maxBytes, p);
        SinceNow(w, es, sha, maxBytes, p, i);
      } else if p !in v.disk {
        OnlyPublishAdds(v, es[last], sha, maxBytes, p);
        if PublishedSince(w, es, sha, maxBytes, p, i) { SinceShrinks(w, es, sha, maxBytes, p, i); }
      } else if RemovedAt(w, es, sha, maxBytes, p, last) {
        if PublishedSince(w, es, sha, maxBytes, p, i) { SinceShrinks(w, es, sha, maxBytes, p, i); }
      } else {
        SinceGrows(w, es, sha, maxBytes, p, i);
      }
    }
  }

  lemma RunLast(w: World, es: seq<Event>, sha: seq<nat> -> Digest, maxBytes: nat)
    requires es != []
    ensures Run(w, es, sha, maxBytes) == Step(Run(w, es[..|es| - 1], sha, maxBytes), es[|es| - 1], sha, maxBytes)
  {
    hide Step;
  }

  /** The caller, at event i - 1, looked, found nothing, and has been on its way to the lock ever since. */
  ghost predicate LookedAt(w: World, es: seq<Event>, sha: seq<nat> -> Digest, maxBytes: nat, c: Caller, p: Path, i: nat) {
    && 0 < i <= |es| && es[i - 1] == Stat(c) && p !in Run(w, es[..i], sha, maxBytes).disk
    && (var u := Run(w, es[..i - 1], sha, maxBytes); c in u.calls && u.calls[c] == Call(p, Checking))
    && forall m: nat :: i <= m <= |es| ==>
         var v := Run(w, es[..m], sha, maxBytes); c in v.calls && v.calls[c] == Call(p, Missed)
  }

  lemma BecomesMissed(w: World, e: Event, sha: seq<nat> -> Digest, maxBytes: nat, c: Caller, p: Path)
    requires c in Step(w, e, sha, maxBytes).calls && Step(w, e, sha, maxBytes).calls[c] == Call(p, Missed)
    ensures || (c in w.calls && w.calls[c] == Call(p, Missed))
            || (&& e == Stat(c) && c in w.calls && w.calls[c] == Call(p, Checking) && p !in Step(w, e, sha, maxBytes).disk)
  {
    hide BlobDigest, StepRespond, StepBeginWalk, StepVisit, StepEndWalk, StepEvict, StepCopy, StepPublish;
    if InFill(e) {
      FillMoves(w, e, sha, maxBytes);
    }
  }

  lemma {:induction false} EveryMissLooked(w: World, es: seq<Event>, sha: seq<nat> -> Digest, maxBytes: nat, c: Caller, p: Path)
    requires Init(w) && c in Run(w, es, sha, maxBytes).calls && Run(w, es, sha, maxBytes).calls[c] == Call(p, Missed)
    ensures exists i: nat :: LookedAt(w, es, sha, maxBytes, c, p, i)
  {
    hide Step;
    if es != [] {
      var front, last := es[..|es| - 1], |es| - 1;
      var v := Run(w, front, sha, maxBytes);
      assert es[..last] == front && es[..|es|] == es;
      BecomesMissed(v, es[last], sha, maxBytes, c, p);
      if c in v.calls && v.calls[c] == Call(p, Missed) {
        EveryMissLooked(w, front, sha, maxBytes, c, p);
        var i: nat :| LookedAt(w, front, sha, maxBytes, c, p, i);
        LookedLonger(w, es, sha, maxBytes, c, p, i);
      } else {
        assert LookedAt(w, es, sha, maxBytes, c, p, |es|);
      }
    }
  }

  lemma LookedLonger(w: World, es: seq<Event>, sha: seq<nat> -> Digest, maxBytes: nat, c: Caller, p: Path, i: nat)
    requires es != [] && LookedAt(w, es[..|es| - 1], sha, maxBytes, c, p, i)
    requires c in Run(w, es, sha, maxBytes).calls && Run(w, es, sha, maxBytes).calls[c] == Call(p, Missed)
    ensures LookedAt(w, es, sha, maxBytes, c, p, i)
  {
    hide Run;
    var front := es[..|es| - 1];
    assert es[..|es|] == es && front[..i] == es[..i] && front[..i - 1] == es[..i - 1];
    forall m: nat | i <= m <= |es|
      ensures var v := Run(w, es[..m], sha, maxBytes); c in v.calls && v.calls[c] == Call(p, Missed)
    {
      if m < |es| {
        assert front[..m] == es[..m];
      }
    }
  }

  /**
   A fill starts on a path that is already cached exactly when, since its
   caller looked, the file was published by someone else and not evicted
   again. So a download is repeated only across that gap between the look and
   the lock.
   */
  lemma RepeatedFillExactly(w: World, es: seq<Event>, sha: seq<nat> -> Digest, maxBytes: nat, c: Caller, made: Chan)
    requires Init(w)
    requires var v := Run(w, es, sha, maxBytes);
             && c in v.calls && v.calls[c].pc.Missed? && v.calls[c].path !in v.inflight && made !in v.opener
    ensures var v := Run(w, es, sha, maxBytes);
            var u := Step(v, Lock(c, made), sha, maxBytes);
            var p := v.calls[c].path;
            && u.calls[c].pc == Requesting(made)
            && (exists i: nat :: LookedAt(w, es, sha, maxBytes, c, p, i))
            && (forall i: nat :: LookedAt(w, es, sha, maxBytes, c, p, i) ==>
                  (p in u.disk <==> PublishedSince(w, es, sha, maxBytes, p, i)))
  {
    hide Run, LookedAt, PublishedSince, Init;
    var v := Run(w, es, sha, maxBytes);
    var p := v.calls[c].path;
    EveryMissLooked(w, es, sha, maxBytes, c, p);
    forall i: nat | LookedAt(w, es, sha, maxBytes, c, p, i)
      ensures p in v.disk <==> PublishedSince(w, es, sha, maxBytes, p, i)
    {
      LookedMissing(w, es, sha, maxBytes, c, p, i);
      CachedExactly(w, es, sha, maxBytes, p, i);
    }
  }

  lemma LookedMissing(w: World, es: seq<Event>, sha: seq<nat> -> Digest, maxBytes: nat, c: Caller, p: Path, i: nat)
    requires LookedAt(w, es, sha, maxBytes, c, p, i)
    ensures i <= |es| && p !in Run(w, es[..i], sha, maxBytes).disk
  {
  }
}
