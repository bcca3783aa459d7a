/**
 The vendor driver-pack queue: rows claimed under a heartbeat lease, runners
 that stream into the object store, hash, verify and finish, and heartbeat
 goroutines that live on their own. Heartbeats and finishing updates name the
 row by id alone, so what protects a row is the lease.
 */
module VendorFetch {
  import opened Basics

  type Time = int
  type JobId = nat
  type RunnerId = nat
  type HeartId = nat
  type Key = string
  type Digest = string

  const LEASE: int := 600  // ten minutes, in seconds

  datatype JobState = Queued | Running | Completed | Failed

  /** `key` is the object key, made of the vendor and the last part of the URL; `evidence` is what the runner
      that completed the row had streamed. */
  datatype Job = Job(key: Key, expected: Digest, createdAt: nat, state: JobState, heartbeatAt: Time, evidence: Option<seq<nat>>)

  /** The heartbeat starts only when the vendor has answered. */
  datatype Stage = Requesting | Uploading | Streamed(content: seq<nat>) | Verified(content: seq<nat>)

  /** A live runner is idle or works on one row. */
  datatype Runner = Idle | Working(job: JobId, stage: Stage) | Dead

  /** A heartbeat goroutine: stopped some time after its runner returns, and not waited for. */
  datatype Heart = Heart(runner: RunnerId, job: JobId)

  datatype World = World(now: Time, jobs: map<JobId, Job>, runners: map<RunnerId, Runner>, hearts: map<HeartId, Heart>,
                         objects: map<Key, seq<nat>>)

  datatype Event =
    | Tick(d: nat)
    | Enqueue(j: JobId, key: Key, expected: Digest, created: nat)
    | StartRunner(r: RunnerId)
    | Claim(r: RunnerId, j: JobId, skipped: set<JobId>)
    | Answer(r: RunnerId, h: HeartId)
    | Beat(h: HeartId)
    | StopHeart(h: HeartId)
    | Upload(r: RunnerId, content: seq<nat>, replied: bool)
    | Verify(r: RunnerId)
    | Delete(r: RunnerId)
    | Complete(r: RunnerId, written: bool)
    | Fail(r: RunnerId, written: bool)
    | Crash(r: RunnerId)

  predicate Runnable(w: World, j: JobId) {
    && j in w.jobs
    && (w.jobs[j].state == Queued || (w.jobs[j].state == Running && w.jobs[j].heartbeatAt < w.now - LEASE))
  }

  /** ORDER BY created_at ... SKIP LOCKED LIMIT 1: the oldest runnable row that no other transaction has locked. */
  ghost predicate Picks(w: World, j: JobId, skipped: set<JobId>) {
    && Runnable(w, j) && j !in skipped
    && forall i :: Runnable(w, i) && i !in skipped ==> w.jobs[j].createdAt <= w.jobs[i].createdAt
  }

  predicate Works(w: World, r: RunnerId) { r in w.runners && w.runners[r].Working? }

  predicate WorksOn(w: World, r: RunnerId, j: JobId) { Works(w, r) && w.runners[r].job == j }

  predicate At(w: World, r: RunnerId, stage: Stage) { Works(w, r) && w.runners[r].stage == stage }

  function SetStage(w: World, r: RunnerId, stage: Stage): World
    requires Works(w, r)
  {
    w.(runners := w.runners[r := w.runners[r].(stage := stage)])
  }

  /** The event is a claim that gets row j. */
  ghost predicate Takes(w: World, e: Event, j: JobId) {
    e.Claim? && e.j == j && e.r in w.runners && w.runners[e.r].Idle? && Picks(w, j, e.skipped)
  }

  ghost function StepClaim(w: World, r: RunnerId, j: JobId, skipped: set<JobId>): World {
    if r in w.runners && w.runners[r].Idle? && Picks(w, j, skipped)
    then w.(jobs := w.jobs[j := w.jobs[j].(state := Running, heartbeatAt := w.now)],
            runners := w.runners[r := Working(j, Requesting)])
    else w
  }

  /** HeartbeatVendorFetchJob: by id, whatever state the row is in. */
  function StepBeat(w: World, h: HeartId): World {
    if h !in w.hearts || w.hearts[h].job !in w.jobs then w
    else
      var j := w.hearts[h].job;
      w.(jobs := w.jobs[j := w.jobs[j].(heartbeatAt := w.now)])
  }

  function StepFinish(w: World, r: RunnerId, s: JobState, evidence: Option<seq<nat>>, written: bool): World
    requires Works(w, r)
  {
    var j := w.runners[r].job;
    var v := w.(runners := w.runners[r := Idle]);
    if !written || j !in w.jobs then v
    else v.(jobs := w.jobs[j := w.jobs[j].(state := s, evidence := evidence)])
  }

  ghost function Step(w: World, e: Event, sha: seq<nat> -> Digest): World {
    match e
    case Tick(d) => w.(now := w.now + d)
    case Enqueue(j, key, expected, created) =>
      if j in w.jobs then w else w.(jobs := w.jobs[j := Job(key, expected, created, Queued, w.now, None)])
    case StartRunner(r) => if r in w.runners then w else w.(runners := w.runners[r := Idle])
    case Claim(r, j, skipped) => StepClaim(w, r, j, skipped)
    case Answer(r, h) =>
      if At(w, r, Requesting) && h !in w.hearts
      then SetStage(w.(hearts := w.hearts[h := Heart(r, w.runners[r].job)]), r, Uploading) else w
    case Beat(h) => StepBeat(w, h)
    case StopHeart(h) => w.(hearts := w.hearts - {h})
    case Upload(r, content, replied) =>
      if !At(w, r, Uploading) || w.runners[r].job !in w.jobs then w
      else
        SetStage(w.(objects := w.objects[w.jobs[w.runners[r].job].key := content]), r,
                 if replied then Streamed(content) else Uploading)
    case Verify(r) =>
      if !Works(w, r) || !w.runners[r].stage.Streamed? || w.runners[r].job !in w.jobs then w
      else if sha(w.runners[r].stage.content) != w.jobs[w.runners[r].job].expected then w
      else SetStage(w, r, Verified(w.runners[r].stage.content))
    case Delete(r) =>
      if !Works(w, r) || !w.runners[r].stage.Streamed? || w.runners[r].job !in w.jobs then w
      else if sha(w.runners[r].stage.content) == w.jobs[w.runners[r].job].expected then w
      else w.(objects := w.objects - {w.jobs[w.runners[r].job].key})
    case Complete(r, written) =>
      if Works(w, r) && w.runners[r].stage.Verified?
      then StepFinish(w, r, Completed, Some(w.runners[r].stage.content), written) else w
    case Fail(r, written) =>
      if Works(w, r) then StepFinish(w, r, Failed, None, written) else w
    case Crash(r) => if r in w.runners then w.(runners := w.runners[r := Dead]) else w
  }

  ghost function Run(w: World, es: seq<Event>, sha: seq<nat> -> Digest): World {
    if es == [] then w else Step(Run(w, es[..|es| - 1], sha), es[|es| - 1], sha)
  }

  ghost predicate Init(w: World) { w.jobs == map[] && w.runners == map[] && w.hearts == map[] && w.objects == map[] }

  /** No row that a live runner works on has gone more than ten minutes without a heartbeat, whoever sent it. */
  ghost predicate InTime(w: World) {
    forall r :: Works(w, r) && w.runners[r].job in w.jobs ==> w.jobs[w.runners[r].job].heartbeatAt >= w.now - 600
  }

  /** Every row worked on was in time, all along the run. */
  ghost predicate Punctual(w: World, es: seq<Event>, sha: seq<nat> -> Digest) {
    (es != [] ==> Punctual(w, es[..|es| - 1], sha)) && InTime(Run(w, es, sha))
  }

  // --- leases ---------------------------------------------------------------------------

  /** Each working runner's row is running. */
  ghost predicate RowsHeld(jobs: map<JobId, Job>, runners: map<RunnerId, Runner>) {
    forall r :: r in runners && runners[r].Working? ==> runners[r].job in jobs && jobs[runners[r].job].state == Running
  }

  /** No two working runners have the same row. */
  ghost predicate OneEach(runners: map<RunnerId, Runner>) {
    forall q, r :: (&& q in runners && r in runners && runners[q].Working? && runners[r].Working?
                    && runners[q].job == runners[r].job) ==> q == r
  }

  /** Each working runner holds a running row, alone. */
  ghost predicate Leased(w: World) { RowsHeld(w.jobs, w.runners) && OneEach(w.runners) }

  lemma ClaimKeepsLeases(w: World, r: RunnerId, j: JobId, skipped: set<JobId>)
    requires Leased(w) && InTime(w)
    ensures Leased(StepClaim(w, r, j, skipped))
  {
  }

  lemma BeatKeepsLeases(w: World, h: HeartId)
    requires Leased(w)
    ensures Leased(StepBeat(w, h))
  {
  }

  lemma FinishKeepsLeases(w: World, r: RunnerId, s: JobState, evidence: Option<seq<nat>>, written: bool)
    requires Leased(w) && Works(w, r)
    ensures Leased(StepFinish(w, r, s, evidence, written))
  {
  }

  lemma StageKeepsLeases(w: World, r: RunnerId, stage: Stage)
    requires Leased(w) && Works(w, r)
    ensures Leased(SetStage(w, r, stage))
  {
  }

  lemma QuietKeepsLeases(w: World, e: Event, sha: seq<nat> -> Digest)
    requires Leased(w) && (e.Tick? || e.Enqueue? || e.StartRunner? || e.Crash?)
    ensures Leased(Step(w, e, sha))
  {
  }

  lemma StepKeepsLeases(w: World, e: Event, sha: seq<nat> -> Digest)
    requires Leased(w) && InTime(w)
    ensures Leased(Step(w, e, sha))
  {
    hide StepClaim, StepBeat, StepFinish, SetStage, InTime, RowsHeld, OneEach;
    match e
    case Claim(r, j, skipped) => ClaimKeepsLeases(w, r, j, skipped);
    case Beat(h) => BeatKeepsLeases(w, h);
    case Answer(r, h) =>
      if Works(w, r) { StageKeepsLeases(w.(hearts := w.hearts[h := Heart(r, w.runners[r].job)]), r, Uploading); }
    case Upload(r, content, replied) =>
      if Works(w, r) && w.runners[r].job in w.jobs {
        var u := w.(objects := w.objects[w.jobs[w.runners[r].job].key := content]);
        StageKeepsLeases(u, r, if replied then Streamed(content) else Uploading);
      }
    case Verify(r) =>
      if Works(w, r) && w.runners[r].stage.Streamed? {
        StageKeepsLeases(w, r, Verified(w.runners[r].stage.content));
      }
    case Complete(r, written) =>
      if Works(w, r) && w.runners[r].stage.Verified? {
        FinishKeepsLeases(w, r, Completed, Some(w.runners[r].stage.content), written);
      }
    case Fail(r, written) => if Works(w, r) { FinishKeepsLeases(w, r, Failed, None, written); }
    case StopHeart(h) =>
    case Delete(r) =>
    case _ => QuietKeepsLeases(w, e, sha);
  }

  lemma {:induction false} RunLeased(w: World, es: seq<Event>, sha: seq<nat> -> Digest)
    requires Init(w) && Punctual(w, es, sha)
    ensures Leased(Run(w, es, sha))
  {
    hide Leased, InTime, Step;
    if es == [] {
      NothingLeased(w);
    } else {
      RunLeased(w, es[..|es| - 1], sha);
      StepKeepsLeases(Run(w, es[..|es| - 1], sha), es[|es| - 1], sha);
    }
  }

  lemma NothingLeased(w: World)
    requires Init(w)
    ensures Leased(w)
  {
  }

  /** In every run whose rows are in time while they are worked on, no row is held by two live runners. */
  lemma OneLiveHolder(w: World, es: seq<Event>, sha: seq<nat> -> Digest, q: RunnerId, r: RunnerId)
    requires Init(w) && Punctual(w, es, sha)
    requires Works(Run(w, es, sha), q) && Works(Run(w, es, sha), r)
    requires Run(w, es, sha).runners[q].job == Run(w, es, sha).runners[r].job
    ensures q == r
  {
    RunLeased(w, es, sha);
  }

  /** Some runner not yet started. */
  lemma {:induction false} SpareRunner(runners: set<RunnerId>) returns (q: RunnerId)
    ensures q !in runners && forall r :: r in runners ==> r < q
  {
    if runners == {} {
      q := 0;
    } else {
      var r :| r in runners;
      q := SpareRunner(runners - {r});
      assert forall x :: x in runners ==> x == r || x in runners - {r};
      if q <= r {
        q := r + 1;
      }
    }
  }

  /** As soon as a row that is worked on is overdue, a second runner can be given it, and can make it final under
      the first. */
  lemma OverdueIsOvertaken(w: World, r: RunnerId, j: JobId, q: RunnerId, sha: seq<nat> -> Digest)
    requires WorksOn(w, r, j) && j in w.jobs && w.jobs[j].state == Running && w.jobs[j].heartbeatAt < w.now - LEASE
    requires q !in w.runners
    ensures var v := Step(Step(w, StartRunner(q), sha), Claim(q, j, w.jobs.Keys - {j}), sha);
            && WorksOn(v, r, j) && WorksOn(v, q, j)
            && WorksOn(Step(v, Fail(q, true), sha), r, j) && Final(Step(v, Fail(q, true), sha), j)
  {
    hide StepBeat;
    var a := Step(w, StartRunner(q), sha);
    assert Picks(a, j, w.jobs.Keys - {j});
    var v := Step(a, Claim(q, j, w.jobs.Keys - {j}), sha);
    assert v.runners == w.runners[q := Working(j, Requesting)];
  }

  /** So being in time is exactly what keeps every row with one live runner. */
  lemma SingleExactlyInTime(w: World, sha: seq<nat> -> Digest)
    requires Leased(w)
    ensures InTime(w) <==> forall q, j, skipped :: OneEach(Step(Step(w, StartRunner(q), sha), Claim(q, j, skipped), sha).runners)
  {
    hide Step, RowsHeld, OneEach;
    if InTime(w) {
      forall q, j, skipped
        ensures OneEach(Step(Step(w, StartRunner(q), sha), Claim(q, j, skipped), sha).runners)
      {
        StepKeepsLeases(w, StartRunner(q), sha);
        StaysInTime(w, StartRunner(q), sha);
        StepKeepsLeases(Step(w, StartRunner(q), sha), Claim(q, j, skipped), sha);
      }
    } else {
      var r :| Works(w, r) && w.runners[r].job in w.jobs && w.jobs[w.runners[r].job].heartbeatAt < w.now - LEASE;
      var j := w.runners[r].job;
      var q := SpareRunner(w.runners.Keys);
      HeldIsRunning(w, r);
      OverdueIsOvertaken(w, r, j, q, sha);
      TwoHolders(Step(Step(w, StartRunner(q), sha), Claim(q, j, w.jobs.Keys - {j}), sha), r, q, j);
    }
  }

  lemma HeldIsRunning(w: World, r: RunnerId)
    requires Leased(w) && Works(w, r)
    ensures w.runners[r].job in w.jobs && w.jobs[w.runners[r].job].state == Running
  {
  }

  lemma TwoHolders(w: World, r: RunnerId, q: RunnerId, j: JobId)
    requires WorksOn(w, r, j) && WorksOn(w, q, j) && r != q
    ensures !OneEach(w.runners)
  {
  }

  // --- final rows -----------------------------------------------------------------------

  ghost predicate Final(w: World, j: JobId) { j in w.jobs && w.jobs[j].state in {Completed, Failed} }

  lemma StepKeepsFinal(w: World, e: Event, sha: seq<nat> -> Digest, j: JobId)
    requires Leased(w) && Final(w, j)
    ensures var v := Step(w, e, sha);
            j in v.jobs && v.jobs[j] == w.jobs[j].(heartbeatAt := v.jobs[j].heartbeatAt)
  {
  }

  /** In such a run a completed or failed row never changes again but for its heartbeat, which a goroutine that
      outlives its runner may still write. */
  lemma {:induction false} FinalRowsStay(w: World, es: seq<Event>, n: nat, sha: seq<nat> -> Digest, j: JobId)
    requires Init(w) && Punctual(w, es, sha) && n <= |es| && Final(Run(w, es[..n], sha), j)
    ensures j in Run(w, es, sha).jobs
    ensures var row := Run(w, es, sha).jobs[j];
            row == Run(w, es[..n], sha).jobs[j].(heartbeatAt := row.heartbeatAt)
  {
    hide Leased, InTime, Step;
    if n == |es| {
      assert es[..n] == es;
    } else {
      var front := es[..|es| - 1];
      assert front[..n] == es[..n];
      FinalRowsStay(w, front, n, sha, j);
      RunLeased(w, front, sha);
      StepKeepsFinal(Run(w, front, sha), es[|es| - 1], sha, j);
    }
  }

  // --- evidence --------------------------------------------------------------------------

  /** A verified runner has the right bytes, and so has a completed row. */
  ghost predicate Evident(w: World, sha: seq<nat> -> Digest) {
    && (forall r :: Works(w, r) && w.runners[r].stage.Verified? ==>
          w.runners[r].job in w.jobs && sha(w.runners[r].stage.content) == w.jobs[w.runners[r].job].expected)
    && (forall j :: j in w.jobs && w.jobs[j].state == Completed ==>
          w.jobs[j].evidence.Some? && sha(w.jobs[j].evidence.value) == w.jobs[j].expected)
  }

  lemma BeatKeepsEvidence(w: World, h: HeartId, sha: seq<nat> -> Digest)
    requires Evident(w, sha)
    ensures Evident(StepBeat(w, h), sha)
  {
  }

  lemma ClaimKeepsEvidence(w: World, r: RunnerId, j: JobId, skipped: set<JobId>, sha: seq<nat> -> Digest)
    requires Evident(w, sha)
    ensures Evident(StepClaim(w, r, j, skipped), sha)
  {
  }

  lemma StepKeepsEvidence(w: World, e: Event, sha: seq<nat> -> Digest)
    requires Evident(w, sha)
    ensures Evident(Step(w, e, sha), sha)
  {
    hide StepClaim, StepBeat;
    match e
    case Claim(r, j, skipped) => ClaimKeepsEvidence(w, r, j, skipped, sha);
    case Beat(h) => BeatKeepsEvidence(w, h, sha);
    case _ =>
  }

  /** In every run at all, a completed row was completed with bytes that hash to the catalog's value. */
  lemma {:induction false} CompletedIsVerified(w: World, es: seq<Event>, sha: seq<nat> -> Digest)
    requires Init(w)
    ensures Evident(Run(w, es, sha), sha)
  {
    hide Evident, Step;
    if es == [] {
      NothingEvident(w, sha);
    } else {
      CompletedIsVerified(w, es[..|es| - 1], sha);
      StepKeepsEvidence(Run(w, es[..|es| - 1], sha), es[|es| - 1], sha);
    }
  }

  lemma NothingEvident(w: World, sha: seq<nat> -> Digest)
    requires Init(w)
    ensures Evident(w, sha)
  {
  }

  // --- the stored object ------------------------------------------------------------------

  ghost predicate KeysDiffer(w: World) { forall i, j :: i in w.jobs && j in w.jobs && i != j ==> w.jobs[i].key != w.jobs[j].key }

  /** The runner's bytes are what is stored under its row's key, unless a mismatch had them deleted. */
  ghost predicate Holds(w: World, r: RunnerId, sha: seq<nat> -> Digest)
    requires Works(w, r) && w.runners[r].job in w.jobs
  {
    var row := w.jobs[w.runners[r].job];
    match w.runners[r].stage
    case Streamed(content) =>
      if row.key in w.objects then w.objects[row.key] == content else sha(content) != row.expected
    case Verified(content) => row.key in w.objects && w.objects[row.key] == content && sha(content) == row.expected
    case _ => true
  }

  ghost predicate RunnersHold(w: World, sha: seq<nat> -> Digest) {
    forall r :: Works(w, r) && w.runners[r].job in w.jobs ==> Holds(w, r, sha)
  }

  /** A completed row's object is there and hashes to its digest. */
  ghost predicate ObjectsGood(w: World, sha: seq<nat> -> Digest) {
    forall j :: j in w.jobs && w.jobs[j].state == Completed ==>
      w.jobs[j].key in w.objects && sha(w.objects[w.jobs[j].key]) == w.jobs[j].expected
  }

  lemma UploadKeepsObjects(w: World, r: RunnerId, content: seq<nat>, replied: bool, sha: seq<nat> -> Digest)
    requires Leased(w) && KeysDiffer(w) && RunnersHold(w, sha) && ObjectsGood(w, sha)
    ensures var v := Step(w, Upload(r, content, replied), sha); RunnersHold(v, sha) && ObjectsGood(v, sha)
  {
    var v := Step(w, Upload(r, content, replied), sha);
    forall q | Works(v, q) && v.runners[q].job in v.jobs
      ensures Holds(v, q, sha)
    {
      assert Holds(w, q, sha);
    }
  }

  lemma DeleteKeepsObjects(w: World, r: RunnerId, sha: seq<nat> -> Digest)
    requires Leased(w) && KeysDiffer(w) && RunnersHold(w, sha) && ObjectsGood(w, sha)
    ensures var v := Step(w, Delete(r), sha); RunnersHold(v, sha) && ObjectsGood(v, sha)
  {
    var v := Step(w, Delete(r), sha);
    forall q | Works(v, q) && v.runners[q].job in v.jobs
      ensures Holds(v, q, sha)
    {
      assert Holds(w, q, sha);
    }
  }

  lemma FinishKeepsHolds(w: World, e: Event, sha: seq<nat> -> Digest)
    requires RunnersHold(w, sha) && (e.Complete? || e.Fail?)
    ensures RunnersHold(Step(w, e, sha), sha)
  {
    hide RunnersHold;
    var v := Step(w, e, sha);
    forall q | Works(v, q) && v.runners[q].job in v.jobs
      ensures Holds(v, q, sha)
    {
      HoldsOf(w, q, sha);
    }
    AllHold(v, sha);
  }

  lemma FinishKeepsGood(w: World, e: Event, sha: seq<nat> -> Digest)
    requires RunnersHold(w, sha) && ObjectsGood(w, sha) && (e.Complete? || e.Fail?)
    ensures ObjectsGood(Step(w, e, sha), sha)
  {
    hide RunnersHold;
    if Works(w, e.r) && w.runners[e.r].job in w.jobs {
      HoldsOf(w, e.r, sha);
    }
  }

  lemma OtherKeepsObjects(w: World, e: Event, sha: seq<nat> -> Digest)
    requires RowsHeld(w.jobs, w.runners) && RunnersHold(w, sha) && ObjectsGood(w, sha)
    requires !e.Upload? && !e.Delete? && !e.Complete? && !e.Fail?
    ensures var v := Step(w, e, sha); RunnersHold(v, sha) && ObjectsGood(v, sha)
  {
    hide Picks, RunnersHold;
    var v := Step(w, e, sha);
    forall q | Works(v, q) && v.runners[q].job in v.jobs
      ensures Holds(v, q, sha)
    {
      if Works(w, q) && w.runners[q].job in w.jobs {
        HoldsOf(w, q, sha);
      }
    }
    AllHold(v, sha);
  }

  lemma HoldsOf(w: World, r: RunnerId, sha: seq<nat> -> Digest)
    requires RunnersHold(w, sha) && Works(w, r) && w.runners[r].job in w.jobs
    ensures Holds(w, r, sha)
  {
  }

  lemma AllHold(w: World, sha: seq<nat> -> Digest)
    requires forall r :: Works(w, r) && w.runners[r].job in w.jobs ==> Holds(w, r, sha)
    ensures RunnersHold(w, sha)
  {
  }

  lemma StepKeepsKeys(w: World, e: Event, sha: seq<nat> -> Digest)
    ensures forall j :: j in w.jobs ==> j in Step(w, e, sha).jobs && Step(w, e, sha).jobs[j].key == w.jobs[j].key
  {
    hide Picks;
  }

  lemma {:induction false} RunKeepsObjects(w: World, es: seq<Event>, sha: seq<nat> -> Digest)
    requires Init(w) && Punctual(w, es, sha) && KeysDiffer(Run(w, es, sha))
    ensures RunnersHold(Run(w, es, sha), sha) && ObjectsGood(Run(w, es, sha), sha)
  {
    hide RowsHeld, OneEach, InTime, RunnersHold, ObjectsGood, Step;
    if es == [] {
      NothingStored(w, sha);
    } else {
      var front, e := es[..|es| - 1], es[|es| - 1];
      var v := Run(w, front, sha);
      StepKeepsKeys(v, e, sha);
      RunKeepsObjects(w, front, sha);
      RunLeased(w, front, sha);
      match e
      case Upload(r, content, replied) => UploadKeepsObjects(v, r, content, replied, sha);
      case Delete(r) => DeleteKeepsObjects(v, r, sha);
      case Complete(_, _) =>
        FinishKeepsHolds(v, e, sha);
        FinishKeepsGood(v, e, sha);
      case Fail(_, _) =>
        FinishKeepsHolds(v, e, sha);
        FinishKeepsGood(v, e, sha);
      case _ => OtherKeepsObjects(v, e, sha);
    }
  }

  lemma NothingStored(w: World, sha: seq<nat> -> Digest)
    requires Init(w)
    ensures RunnersHold(w, sha) && ObjectsGood(w, sha)
  {
  }

  /** In such a run, if no two rows share an object key, every completed row's object still hashes to its digest. */
  lemma CompletedObjectsAreGood(w: World, es: seq<Event>, sha: seq<nat> -> Digest, j: JobId)
    requires Init(w) && Punctual(w, es, sha) && KeysDiffer(Run(w, es, sha))
    requires j in Run(w, es, sha).jobs && Run(w, es, sha).jobs[j].state == Completed
    ensures var v := Run(w, es, sha);
            v.jobs[j].key in v.objects && sha(v.objects[v.jobs[j].key]) == v.jobs[j].expected
  {
    RunKeepsObjects(w, es, sha);
  }

  lemma UploadStep(w: World, r: RunnerId, content: seq<nat>, sha: seq<nat> -> Digest)
    requires At(w, r, Uploading) && w.runners[r].job in w.jobs
    ensures var j := w.runners[r].job;
            Step(w, Upload(r, content, true), sha) ==
            w.(runners := w.runners[r := Working(j, Streamed(content))], objects := w.objects[w.jobs[j].key := content])
  {
  }

  /** With the promised digest the row is completed, and the object is there. */
  lemma GoodFetch(w: World, r: RunnerId, content: seq<nat>, sha: seq<nat> -> Digest)
    requires At(w, r, Uploading) && w.runners[r].job in w.jobs
    requires sha(content) == w.jobs[w.runners[r].job].expected
    ensures var j := w.runners[r].job;
            Step(Step(Step(w, Upload(r, content, true), sha), Verify(r), sha), Complete(r, true), sha) ==
            w.(runners := w.runners[r := Idle], objects := w.objects[w.jobs[j].key := content],
               jobs := w.jobs[j := w.jobs[j].(state := Completed, evidence := Some(content))])
  {
    var j := w.runners[r].job;
    var u := Step(w, Upload(r, content, true), sha);
    UploadStep(w, r, content, sha);
    var v := Step(u, Verify(r), sha);
    assert v == u.(runners := u.runners[r := Working(j, Verified(content))]);
    assert v.runners[r := Idle] == w.runners[r := Idle];
  }

  /** With any other the row fails, and no object is left under its key. */
  lemma BadFetch(w: World, r: RunnerId, content: seq<nat>, sha: seq<nat> -> Digest)
    requires At(w, r, Uploading) && w.runners[r].job in w.jobs
    requires sha(content) != w.jobs[w.runners[r].job].expected
    ensures var j := w.runners[r].job;
            Step(Step(Step(w, Upload(r, content, true), sha), Delete(r), sha), Fail(r, true), sha) ==
            w.(runners := w.runners[r := Idle], objects := w.objects - {w.jobs[j].key},
               jobs := w.jobs[j := w.jobs[j].(state := Failed, evidence := None)])
  {
    var j := w.runners[r].job;
    var u := Step(w, Upload(r, content, true), sha);
    UploadStep(w, r, content, sha);
    var v := Step(u, Delete(r), sha);
    assert v == u.(objects := u.objects - {w.jobs[j].key});
    assert v.objects == w.objects - {w.jobs[j].key};
    assert v.runners[r := Idle] == w.runners[r := Idle];
  }

  /** The object of a row that was verified is not deleted, and content that does not match is never verified. */
  lemma VerdictIsFinal(w: World, r: RunnerId, sha: seq<nat> -> Digest)
    requires Works(w, r) && w.runners[r].stage.Streamed? && w.runners[r].job in w.jobs
    ensures var good := sha(w.runners[r].stage.content) == w.jobs[w.runners[r].job].expected;
            (good ==> Step(w, Delete(r), sha) == w) && (!good ==> Step(w, Verify(r), sha) == w)
  {
  }

  /** A heartbeat starts exactly when the vendor has answered the runner, for the runner's own row. */
  lemma AnswerStartsHeart(w: World, r: RunnerId, h: HeartId, sha: seq<nat> -> Digest)
    requires h !in w.hearts
    ensures var v := Step(w, Answer(r, h), sha);
            && (h in v.hearts <==> At(w, r, Requesting))
            && (if h in v.hearts then v.hearts[h] == Heart(r, w.runners[r].job) && At(v, r, Uploading) else v == w)
  {
  }

  /** A stopped heartbeat no longer beats. */
  lemma StoppedIsSilent(w: World, h: HeartId, sha: seq<nat> -> Digest)
    ensures var v := Step(w, StopHeart(h), sha); v == w.(hearts := w.hearts - {h}) && Step(v, Beat(h), sha) == v
  {
  }

  lemma StepLeavesDead(w: World, e: Event, r: RunnerId, sha: seq<nat> -> Digest)
    requires r in w.runners && w.runners[r] == Dead
    ensures r in Step(w, e, sha).runners && Step(w, e, sha).runners[r] == Dead
  {
    hide Picks;
  }

  /** A crashed runner never works again. */
  lemma {:induction false} DeadStaysDead(w: World, es: seq<Event>, r: RunnerId, sha: seq<nat> -> Digest)
    requires r in w.runners
    ensures var v := Run(Step(w, Crash(r), sha), es, sha); r in v.runners && v.runners[r] == Dead
  {
    if es != [] {
      hide Step;
      DeadStaysDead(w, es[..|es| - 1], r, sha);
      StepLeavesDead(Run(Step(w, Crash(r), sha), es[..|es| - 1], sha), es[|es| - 1], r, sha);
    }
  }

  // --- reclaiming ---------------------------------------------------------------------------

  /** The row is running and nobody is left to finish it or to keep its lease alive. */
  ghost predicate Abandoned(w: World, j: JobId) {
    && j in w.jobs && w.jobs[j].state == Running
    && (forall r :: Works(w, r) ==> w.runners[r].job != j) && (forall h :: h in w.hearts ==> w.hearts[h].job != j)
  }

  lemma AbandonedStays(w: World, e: Event, sha: seq<nat> -> Digest, j: JobId)
    requires Abandoned(w, j) && !Takes(w, e, j)
    ensures Abandoned(Step(w, e, sha), j) && Step(w, e, sha).jobs[j] == w.jobs[j]
  {
  }

  /** After any events, once more than ten minutes have passed since its last heartbeat, a row whose runner is gone
      has been claimed again or can be. */
  lemma {:induction false} AbandonedIsReclaimed(w: World, es: seq<Event>, sha: seq<nat> -> Digest, j: JobId)
    requires Abandoned(w, j) && Run(w, es, sha).now > w.jobs[j].heartbeatAt + LEASE
    ensures || Runnable(Run(w, es, sha), j)
            || exists n :: 0 <= n < |es| && Takes(Run(w, es[..n], sha), es[n], j)
  {
    if !(exists n :: 0 <= n < |es| && Takes(Run(w, es[..n], sha), es[n], j)) {
      StillAbandoned(w, es, sha, j);
    }
  }

  lemma {:induction false} StillAbandoned(w: World, es: seq<Event>, sha: seq<nat> -> Digest, j: JobId)
    requires Abandoned(w, j) && forall n :: 0 <= n < |es| ==> !Takes(Run(w, es[..n], sha), es[n], j)
    ensures Abandoned(Run(w, es, sha), j) && Run(w, es, sha).jobs[j] == w.jobs[j]
  {
    hide Step, Takes;
    if es != [] {
      var front := es[..|es| - 1];
      forall n | 0 <= n < |front|
        ensures !Takes(Run(w, front[..n], sha), front[n], j)
      {
        assert front[..n] == es[..n] && front[n] == es[n];
      }
      StillAbandoned(w, front, sha, j);
      assert !Takes(Run(w, es[..|front|], sha), es[|front|], j);
      AbandonedStays(Run(w, front, sha), es[|es| - 1], sha, j);
    }
  }

  /** The claim always goes to the oldest runnable row when none is locked, and finds one exactly when one exists. */
  lemma OldestIsClaimed(w: World, r: RunnerId, sha: seq<nat> -> Digest)
    requires r in w.runners && w.runners[r].Idle?
    ensures (exists j :: Runnable(w, j)) <==> exists j :: Picks(w, j, {}) && Step(w, Claim(r, j, {}), sha).runners[r] == Working(j, Requesting)
  {
    hide Step;
    var runnable := set j | j in w.jobs && Runnable(w, j);
    if runnable != {} {
      var j := OldestOf(w, runnable);
      assert Picks(w, j, {});
      ClaimIs(w, r, j, sha);
    } else {
      forall j
        ensures !Runnable(w, j)
      {
        assert j !in runnable;
      }
    }
  }

  lemma ClaimIs(w: World, r: RunnerId, j: JobId, sha: seq<nat> -> Digest)
    requires r in w.runners && w.runners[r].Idle? && Picks(w, j, {})
    ensures Step(w, Claim(r, j, {}), sha) == w.(jobs := w.jobs[j := w.jobs[j].(state := Running, heartbeatAt := w.now)],
                                                runners := w.runners[r := Working(j, Requesting)])
  {
    hide Picks;
  }

  lemma {:induction false} OldestOf(w: World, s: set<JobId>) returns (j: JobId)
    requires s != {} && forall i :: i in s ==> i in w.jobs
    ensures j in s && forall i :: i in s ==> w.jobs[j].createdAt <= w.jobs[i].createdAt
    decreases s
  {
    j :| j in s;
    if s != {j} {
      var k := OldestOf(w, s - {j});
      if w.jobs[k].createdAt < w.jobs[j].createdAt {
        j := k;
      }
    }
  }

  // --- runs that show what the conditions are for --------------------------------------------

  ghost predicate Reachable(w: World, sha: seq<nat> -> Digest) { exists start, es :: Init(start) && Run(start, es, sha) == w }

  ghost predicate ReachedInTime(w: World, sha: seq<nat> -> Digest) {
    exists start, es :: Init(start) && Punctual(start, es, sha) && Run(start, es, sha) == w
  }

  lemma Onward(w: World, e: Event, sha: seq<nat> -> Digest)
    requires Reachable(w, sha)
    ensures Reachable(Step(w, e, sha), sha)
  {
    hide Step;
    var start, es :| Init(start) && Run(start, es, sha) == w;
    assert (es + [e])[..|es + [e]| - 1] == es;
    assert Run(start, es + [e], sha) == Step(w, e, sha);
  }

  lemma OnwardInTime(w: World, e: Event, sha: seq<nat> -> Digest)
    requires ReachedInTime(w, sha) && InTime(Step(w, e, sha))
    ensures ReachedInTime(Step(w, e, sha), sha)
  {
    hide Step, InTime;
    var start, es :| Init(start) && Punctual(start, es, sha) && Run(start, es, sha) == w;
    assert (es + [e])[..|es + [e]| - 1] == es;
    assert Run(start, es + [e], sha) == Step(w, e, sha) && Punctual(start, es + [e], sha);
  }

  function Nothing(): World { World(0, map[], map[], map[], map[]) }

  lemma NothingIsReached(sha: seq<nat> -> Digest)
    ensures Reachable(Nothing(), sha) && ReachedInTime(Nothing(), sha)
  {
    assert Run(Nothing(), [], sha) == Nothing() && Punctual(Nothing(), [], sha);
  }

  /** One row, queued, and runner r idle beside it. */
  function Ready(row: Job, r: RunnerId): World { World(0, map[7 := row], map[r := Idle], map[], map[]) }

  lemma ReadyIsReached(row: Job, r: RunnerId, sha: seq<nat> -> Digest)
    requires row.state == Queued && row.heartbeatAt == 0 && row.evidence == None
    ensures Reachable(Ready(row, r), sha) && ReachedInTime(Ready(row, r), sha)
  {
    NothingIsReached(sha);
    var queue := Enqueue(7, row.key, row.expected, row.createdAt);
    var w := Step(Nothing(), queue, sha);
    assert Step(w, StartRunner(r), sha) == Ready(row, r);
    Onward(Nothing(), queue, sha);
    Onward(w, StartRunner(r), sha);
    OnwardInTime(Nothing(), queue, sha);
    OnwardInTime(w, StartRunner(r), sha);
  }

  /** The rest of a fetch by runner r, from the vendor's answer to the finishing update. */
  ghost function Fetched(w: World, r: RunnerId, h: HeartId, content: seq<nat>, sha: seq<nat> -> Digest): World {
    Step(Step(Step(Step(w, Answer(r, h), sha), Upload(r, content, true), sha), Verify(r), sha), Complete(r, true), sha)
  }

  lemma FetchedIs(w: World, r: RunnerId, h: HeartId, content: seq<nat>, sha: seq<nat> -> Digest)
    requires At(w, r, Requesting) && h !in w.hearts
    requires w.runners[r].job in w.jobs && w.jobs[w.runners[r].job].expected == sha(content)
    ensures var row := w.jobs[w.runners[r].job];
            Fetched(w, r, h, content, sha)
            == World(w.now, w.jobs[w.runners[r].job := row.(state := Completed, evidence := Some(content))],
                     w.runners[r := Idle], w.hearts[h := Heart(r, w.runners[r].job)], w.objects[row.key := content])
  {
    var a := Step(w, Answer(r, h), sha);
    var b := Step(a, Upload(r, content, true), sha);
    assert b.runners == w.runners[r := w.runners[r].(stage := Streamed(content))];
    var c := Step(b, Verify(r), sha);
    assert c.runners == w.runners[r := w.runners[r].(stage := Verified(content))];
  }

  lemma StaysInTime(w: World, e: Event, sha: seq<nat> -> Digest)
    requires InTime(w) && (e.Answer? || e.Upload? || e.Verify? || e.Complete? || e.Enqueue? || e.StartRunner? || e.Claim?)
    ensures InTime(Step(w, e, sha))
  {
    hide Picks;
  }

  /** One more step on time. */
  lemma Next(w: World, e: Event, sha: seq<nat> -> Digest)
    requires ReachedInTime(w, sha) && (e.Answer? || e.Upload? || e.Verify? || e.Complete? || e.Enqueue? || e.StartRunner? || e.Claim?)
    ensures ReachedInTime(Step(w, e, sha), sha)
  {
    hide Step, InTime, Punctual;
    IsInTime(w, sha);
    StaysInTime(w, e, sha);
    OnwardInTime(w, e, sha);
  }

  lemma IsInTime(w: World, sha: seq<nat> -> Digest)
    requires ReachedInTime(w, sha)
    ensures InTime(w)
  {
  }

  lemma FetchOnward(w: World, r: RunnerId, h: HeartId, content: seq<nat>, sha: seq<nat> -> Digest)
    ensures Reachable(w, sha) ==> Reachable(Fetched(w, r, h, content, sha), sha)
    ensures ReachedInTime(w, sha) ==> ReachedInTime(Fetched(w, r, h, content, sha), sha)
  {
    hide Step, Reachable, ReachedInTime;
    var a := Step(w, Answer(r, h), sha);
    var b := Step(a, Upload(r, content, true), sha);
    var c := Step(b, Verify(r), sha);
    if Reachable(w, sha) {
      Onward(w, Answer(r, h), sha);
      Onward(a, Upload(r, content, true), sha);
      Onward(b, Verify(r), sha);
      Onward(c, Complete(r, true), sha);
    }
    if ReachedInTime(w, sha) {
      Next(w, Answer(r, h), sha);
      Next(a, Upload(r, content, true), sha);
      Next(b, Verify(r), sha);
      Next(c, Complete(r, true), sha);
    }
  }

  /** The claim of the one queued row. */
  lemma ClaimedIs(row: Job, r: RunnerId, sha: seq<nat> -> Digest)
    requires row.state == Queued && row.heartbeatAt == 0
    ensures Step(Ready(row, r), Claim(r, 7, {}), sha)
            == World(0, map[7 := row.(state := Running)], map[r := Working(7, Requesting)], map[], map[])
  {
    assert Picks(Ready(row, r), 7, {});
  }

  /** The second claim, by a runner that starts after more than ten minutes. */
  lemma SecondClaim(row: Job, sha: seq<nat> -> Digest)
    requires row.state == Running && row.heartbeatAt == 0
    ensures var a := World(0, map[7 := row], map[1 := Working(7, Requesting)], map[], map[]);
            Step(Step(Step(a, Tick(601), sha), StartRunner(2), sha), Claim(2, 7, {}), sha)
            == World(601, map[7 := row.(heartbeatAt := 601)],
                     map[1 := Working(7, Requesting), 2 := Working(7, Requesting)], map[], map[])
  {
    var c := World(601, map[7 := row], map[1 := Working(7, Requesting), 2 := Idle], map[], map[]);
    assert Picks(c, 7, {});
  }

  /**
   Without heartbeats the promises fail. The vendor takes more than ten
   minutes to answer, so no heartbeat has started: the row is claimed a second
   time while its first runner still works, the first completes it, and the
   second then marks the completed row failed.
   */
  lemma LateRunnerBreaksPromises(sha: seq<nat> -> Digest, content: seq<nat>) returns (both: World, done: World)
    ensures Reachable(both, sha) && WorksOn(both, 1, 7) && WorksOn(both, 2, 7) && both.hearts == map[]
    ensures Reachable(done, sha) && 7 in done.jobs && done.jobs[7].state == Completed
    ensures var v := Step(done, Fail(2, true), sha); 7 in v.jobs && v.jobs[7].state == Failed
  {
    hide Reachable, ReachedInTime;
    var row := Job("k", sha(content), 0, Queued, 0, None);
    ReadyIsReached(row, 1, sha);
    both := Overtaken(row, sha);
    done := Fetched(both, 1, 1, content, sha);
    FetchOnward(both, 1, 1, content, sha);
    FetchedIs(both, 1, 1, content, sha);
  }

  lemma Overtaken(row: Job, sha: seq<nat> -> Digest) returns (both: World)
    requires row.state == Queued && row.heartbeatAt == 0 && Reachable(Ready(row, 1), sha)
    ensures Reachable(both, sha)
    ensures both == World(601, map[7 := row.(state := Running, heartbeatAt := 601)],
                          map[1 := Working(7, Requesting), 2 := Working(7, Requesting)], map[], map[])
  {
    hide Step, Reachable;
    var a := Step(Ready(row, 1), Claim(1, 7, {}), sha);
    var b := Step(a, Tick(601), sha);
    var c := Step(b, StartRunner(2), sha);
    both := Step(c, Claim(2, 7, {}), sha);
    Onward(Ready(row, 1), Claim(1, 7, {}), sha);
    Onward(a, Tick(601), sha);
    Onward(b, StartRunner(2), sha);
    Onward(c, Claim(2, 7, {}), sha);
    ClaimedIs(row, 1, sha);
    SecondClaim(row.(state := Running), sha);
  }

  /** A row completed on time, its runner idle again and the heartbeat goroutine not yet stopped. */
  lemma CompletedOnTime(key: Key, content: seq<nat>, sha: seq<nat> -> Digest) returns (w: World)
    ensures ReachedInTime(w, sha)
    ensures w == World(0, map[7 := Job(key, sha(content), 0, Completed, 0, Some(content))], map[1 := Idle],
                       map[1 := Heart(1, 7)], map[key := content])
  {
    hide Step, Reachable, ReachedInTime;
    var row := Job(key, sha(content), 0, Queued, 0, None);
    ReadyIsReached(row, 1, sha);
    var a := Step(Ready(row, 1), Claim(1, 7, {}), sha);
    Next(Ready(row, 1), Claim(1, 7, {}), sha);
    ClaimedIs(row, 1, sha);
    w := Fetched(a, 1, 1, content, sha);
    FetchOnward(a, 1, 1, content, sha);
    FetchedIs(a, 1, 1, content, sha);
  }

  /** On time and yet: the goroutine of a runner that has completed its row beats once more, and the row moves. */
  lemma LateBeatMovesFinalRow(content: seq<nat>, sha: seq<nat> -> Digest) returns (w: World)
    ensures ReachedInTime(w, sha) && Final(w, 7) && w.jobs[7].heartbeatAt == 0
    ensures var v := Step(Step(w, Tick(30), sha), Beat(1), sha);
            ReachedInTime(v, sha) && Final(v, 7) && v.jobs[7].heartbeatAt == 30
  {
    hide ReachedInTime, Step, InTime;
    w := CompletedOnTime("k", content, sha);
    TickAndBeat(w, sha);
    OnwardInTime(w, Tick(30), sha);
    OnwardInTime(Step(w, Tick(30), sha), Beat(1), sha);
  }

  lemma TickAndBeat(w: World, sha: seq<nat> -> Digest)
    requires w.runners == map[1 := Idle] && w.now == 0 && w.hearts == map[1 := Heart(1, 7)] && Final(w, 7)
    ensures var a := Step(w, Tick(30), sha);
            var v := Step(a, Beat(1), sha);
            InTime(a) && InTime(v) && Final(v, 7) && v.jobs[7].heartbeatAt == 30
  {
    hide StepClaim, StepFinish;
  }

  /** On time and yet: a second row with the same object key overwrites the object of a completed one. */
  lemma SharedKeyBreaksObject(key: Key, good: seq<nat>, bad: seq<nat>, expected: Digest, sha: seq<nat> -> Digest)
    returns (w: World)
    requires sha(bad) != sha(good)
    ensures ReachedInTime(w, sha) && 7 in w.jobs && w.jobs[7].state == Completed && w.jobs[7].key == key
    ensures 8 in w.jobs && w.jobs[8].key == key && w.jobs[8].expected == expected
    ensures key in w.objects && sha(w.objects[key]) != w.jobs[7].expected
  {
    hide ReachedInTime, Step;
    var a := CompletedOnTime(key, good, sha);
    var b := Step(a, Enqueue(8, key, expected, 1), sha);
    Next(a, Enqueue(8, key, expected, 1), sha);
    var c := Step(b, Claim(1, 8, {}), sha);
    Next(b, Claim(1, 8, {}), sha);
    var d := Step(c, Answer(1, 2), sha);
    Next(c, Answer(1, 2), sha);
    w := Step(d, Upload(1, bad, true), sha);
    Next(d, Upload(1, bad, true), sha);
    SecondUpload(a, key, good, bad, expected, sha);
  }

  lemma SecondUpload(a: World, key: Key, good: seq<nat>, bad: seq<nat>, expected: Digest, sha: seq<nat> -> Digest)
    requires a == World(0, map[7 := Job(key, sha(good), 0, Completed, 0, Some(good))], map[1 := Idle],
                        map[1 := Heart(1, 7)], map[key := good])
    ensures var b := Step(a, Enqueue(8, key, expected, 1), sha);
            var w := Step(Step(Step(b, Claim(1, 8, {}), sha), Answer(1, 2), sha), Upload(1, bad, true), sha);
            && w.jobs == map[7 := Job(key, sha(good), 0, Completed, 0, Some(good)), 8 := Job(key, expected, 1, Running, 0, None)]
            && w.objects == map[key := bad]
  {
    hide Step;
    var done, next := Job(key, sha(good), 0, Completed, 0, Some(good)), Job(key, expected, 1, Queued, 0, None);
    var b := World(0, map[7 := done, 8 := next], map[1 := Idle], map[1 := Heart(1, 7)], map[key := good]);
    SecondRow(a, b, key, expected, sha);
    assert Picks(b, 8, {});
    ClaimIs(b, 1, 8, sha);
    var c := Step(b, Claim(1, 8, {}), sha);
    UploadIs(c, 1, 2, bad, sha);
  }

  lemma SecondRow(a: World, b: World, key: Key, expected: Digest, sha: seq<nat> -> Digest)
    requires 8 !in a.jobs && a.now == 0 && b == a.(jobs := a.jobs[8 := Job(key, expected, 1, Queued, 0, None)])
    ensures Step(a, Enqueue(8, key, expected, 1), sha) == b
  {
  }

  lemma UploadIs(w: World, r: RunnerId, h: HeartId, content: seq<nat>, sha: seq<nat> -> Digest)
    requires At(w, r, Requesting) && h !in w.hearts && w.runners[r].job in w.jobs
    ensures var v := Step(Step(w, Answer(r, h), sha), Upload(r, content, true), sha);
            v.jobs == w.jobs && v.objects == w.objects[w.jobs[w.runners[r].job].key := content]
  {
    var a := Step(w, Answer(r, h), sha);
    assert a.runners == w.runners[r := w.runners[r].(stage := Uploading)];
  }
}
