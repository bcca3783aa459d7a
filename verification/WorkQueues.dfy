/** Wake-on-LAN requests: queued by operators, claimed by edge agents, reaped by the worker. */
module WakeQueue {
  import opened Basics

  type Time = int
  type WakeId = nat
  type Site = string

  datatype Row = Row(site: Site, scheduledAt: Time, claimedAt: Option<Time>)

  /** The table, and the history: every id created, every id reaped, how often each was handed out. */
  datatype World = World(now: Time, rows: map<WakeId, Row>, created: set<WakeId>, reaped: set<WakeId>, handed: multiset<WakeId>)

  datatype Event =
    | Tick(d: nat)
    | Create(id: WakeId, site: Site, scheduledAt: Option<Time>)
    | Claim(site: Site, limit: int, locked: set<WakeId>, ids: set<WakeId>)
    | Reap(older: nat)

  function SiteOr(site: Site): Site { if site == "" then "default" else site }

  function LimitOr(limit: int): nat { if limit <= 0 then 50 else limit }

  /** The WHERE clause of the claim. */
  function Due(w: World, site: Site): set<WakeId> {
    set i | i in w.rows && w.rows[i].site == SiteOr(site) && w.rows[i].claimedAt.None? && w.rows[i].scheduledAt <= w.now
  }

  /** ORDER BY scheduled_at LIMIT n SKIP LOCKED: as many as the limit allows, earliest first. */
  ghost predicate Picks(w: World, site: Site, limit: int, locked: set<WakeId>, ids: set<WakeId>) {
    var free := Due(w, site) - locked;
    && ids <= free
    && |ids| == (if |free| < LimitOr(limit) then |free| else LimitOr(limit))
    && forall i, j :: i in ids && j in free - ids ==> w.rows[i].scheduledAt <= w.rows[j].scheduledAt
  }

  function Overdue(w: World, older: nat): set<WakeId> {
    set i | i in w.rows && w.rows[i].claimedAt.Some? && w.rows[i].claimedAt.value < w.now - older
  }

  ghost function Step(w: World, e: Event): World {
    match e
    case Tick(d) => w.(now := w.now + d)
    case Create(id, site, at) =>
      if id in w.created then w
      else w.(rows := w.rows[id := Row(SiteOr(site), if at.Some? then at.value else w.now, None)], created := w.created + {id})
    case Claim(site, limit, locked, ids) =>
      if !Picks(w, site, limit, locked, ids) then w
      else w.(rows := map i | i in w.rows :: if i in ids then w.rows[i].(claimedAt := Some(w.now)) else w.rows[i],
              handed := w.handed + multiset(ids))
    case Reap(older) => w.(rows := w.rows - Overdue(w, older), reaped := w.reaped + Overdue(w, older))
  }

  ghost function Run(w: World, es: seq<Event>): World {
    if es == [] then w else Step(Run(w, es[..|es| - 1]), es[|es| - 1])
  }

  ghost predicate Init(w: World) { w.rows == map[] && w.created == {} && w.reaped == {} && w.handed == multiset{} }

  function Waiting(w: World): set<WakeId> { set i | i in w.rows && w.rows[i].claimedAt.None? }

  function ClaimedIds(w: World): set<WakeId> { set i | i in w.rows && w.rows[i].claimedAt.Some? }

  ghost predicate Inv(w: World) {
    && w.created == w.rows.Keys + w.reaped && w.rows.Keys !! w.reaped
    && forall i :: w.handed[i] == if i in w.reaped || (i in w.rows && w.rows[i].claimedAt.Some?) then 1 else 0
  }

  lemma StepKeepsInv(w: World, e: Event)
    requires Inv(w)
    ensures Inv(Step(w, e))
  {
    if e.Claim? && Picks(w, e.site, e.limit, e.locked, e.ids) {
      var v := Step(w, e);
      assert v.rows.Keys == w.rows.Keys;
      assert forall i :: multiset(e.ids)[i] == if i in e.ids then 1 else 0;
    }
  }

  lemma {:induction false} RunKeepsInv(w: World, es: seq<Event>)
    requires Init(w)
    ensures Inv(Run(w, es))
  {
    hide Step;
    if es != [] {
      RunKeepsInv(w, es[..|es| - 1]);
      StepKeepsInv(Run(w, es[..|es| - 1]), es[|es| - 1]);
    }
  }

  /**
   Nothing is lost and nothing is handed out twice: every request created is
   waiting, claimed or reaped, one of the three; a request has been handed to
   exactly one claim once it is claimed or reaped, and to none while it waits.
   */
  lemma WakesAreConserved(w: World, es: seq<Event>)
    requires Init(w)
    ensures var v := Run(w, es);
            && v.created == Waiting(v) + ClaimedIds(v) + v.reaped
            && |v.created| == |Waiting(v)| + |ClaimedIds(v)| + |v.reaped|
            && forall i :: v.handed[i] == if i in ClaimedIds(v) || i in v.reaped then 1 else 0
  {
    hide Run, Init, Inv, Waiting, ClaimedIds;
    RunKeepsInv(w, es);
    EveryWakeIsSomewhere(Run(w, es));
  }

  lemma EveryWakeIsSomewhere(v: World)
    requires Inv(v)
    ensures v.created == Waiting(v) + ClaimedIds(v) + v.reaped
    ensures |v.created| == |Waiting(v)| + |ClaimedIds(v)| + |v.reaped|
    ensures forall i :: v.handed[i] == if i in ClaimedIds(v) || i in v.reaped then 1 else 0
  {
    var waiting, claimed := Waiting(v), ClaimedIds(v);
    assert v.rows.Keys == waiting + claimed && waiting !! claimed;
    assert |v.rows.Keys| == |waiting| + |claimed|;
    assert |v.created| == |v.rows.Keys| + |v.reaped|;
  }

  /** A claim with room for all takes every due request of its site that is not locked, and only those. */
  lemma ClaimTakesAllDue(w: World, site: Site, limit: int, locked: set<WakeId>, ids: set<WakeId>)
    requires Picks(w, site, limit, locked, ids) && |Due(w, site) - locked| <= LimitOr(limit)
    ensures ids == Due(w, site) - locked
    ensures Due(Step(w, Claim(site, limit, locked, ids)), site) <= locked
  {
    SameSize(ids, Due(w, site) - locked);
  }

  /** A request left behind although it was due and free: the claim was full, with none scheduled later. */
  lemma NoneSkipped(w: World, site: Site, limit: int, locked: set<WakeId>, ids: set<WakeId>, i: WakeId)
    requires Picks(w, site, limit, locked, ids) && i in w.rows && i !in locked && i !in ids
    requires SiteNamed(site, w.rows[i].site) && w.rows[i].claimedAt.None? && w.rows[i].scheduledAt <= w.now
    ensures |ids| == if limit <= 0 then 50 else limit
    ensures forall j :: j in ids ==> w.rows[j].scheduledAt <= w.rows[i].scheduledAt
  {
    var free := Due(w, site) - locked;
    assert i in free;
    if |ids| == |free| {
      SameSize(ids, free);
    }
  }

  /** A claim stamps the rows it takes with the time, and touches nothing else. */
  lemma ClaimMarks(w: World, site: Site, limit: int, locked: set<WakeId>, ids: set<WakeId>, i: WakeId)
    requires Picks(w, site, limit, locked, ids) && i in w.rows
    ensures var v := Step(w, Claim(site, limit, locked, ids));
            && v.rows.Keys == w.rows.Keys
            && v.rows[i] == if i in ids then Row(w.rows[i].site, w.rows[i].scheduledAt, Some(w.now)) else w.rows[i]
  {
    hide Picks;
  }

  /** Reaping removes exactly the rows handed out longer ago than the grace period; a waiting request is never removed. */
  lemma ReapIsExact(w: World, older: nat, i: WakeId)
    requires i in w.rows
    ensures i in Step(w, Reap(older)).rows <==> w.rows[i].claimedAt.None? || w.rows[i].claimedAt.value + older >= w.now
    ensures i in Step(w, Reap(older)).rows ==> Step(w, Reap(older)).rows[i] == w.rows[i]
  {
  }

  /** The site a caller means, who may leave it out. */
  predicate SiteNamed(given: Site, site: Site) { if given == "" then site == "default" else site == given }

  /** This step asks for the request, for that site at that time; without a time it is at once. */
  ghost predicate Asks(w: World, e: Event, id: WakeId, site: Site, at: Time) {
    e.Create? && e.id == id && id !in w.created && SiteNamed(e.site, site)
    && (e.scheduledAt == Some(at) || (e.scheduledAt.None? && w.now == at))
  }

  /** A request that is asked for is there, and is due at its site from its time on. */
  lemma AskedIsDue(w: World, e: Event, id: WakeId, site: Site, at: Time, given: Site, now: Time)
    requires Asks(w, e, id, site, at) && SiteNamed(given, site)
    ensures id in Step(w, e).rows && id in Step(w, e).created
    ensures id in Due(Step(w, e).(now := now), given) <==> at <= now
  {
    assert Step(w, e).rows[id] == Row(site, at, None);
  }

  ghost predicate AskedBefore(w: World, es: seq<Event>, n: nat, id: WakeId, site: Site, at: Time)
    requires n <= |es|
  {
    exists m :: 0 <= m < n && Asks(Run(w, es[..m]), es[m], id, site, at)
  }

  /** A row says what was asked for. */
  lemma {:induction false} RowsAreAsAsked(w: World, es: seq<Event>, n: nat, id: WakeId)
    requires Init(w) && n <= |es| && id in Run(w, es[..n]).rows
    ensures var row := Run(w, es[..n]).rows[id]; AskedBefore(w, es, n, id, row.site, row.scheduledAt)
  {
    if n > 0 {
      assert es[..n][..n - 1] == es[..n - 1];
      var v, e := Run(w, es[..n - 1]), es[n - 1];
      RowFromStep(v, e, id);
      if id in v.rows {
        RowsAreAsAsked(w, es, n - 1, id);
      }
    }
  }

  lemma RowFromStep(v: World, e: Event, id: WakeId)
    requires id in Step(v, e).rows
    ensures var row := Step(v, e).rows[id];
            (id in v.rows && v.rows[id].site == row.site && v.rows[id].scheduledAt == row.scheduledAt)
            || Asks(v, e, id, row.site, row.scheduledAt)
  {
    hide Picks;
  }

  /** In every run, a request is handed out only after it was asked for, to its own site, and never early. */
  lemma HandedOutWhenAsked(w: World, es: seq<Event>, n: nat, id: WakeId)
    requires Init(w) && n < |es| && es[n].Claim?
    requires Run(w, es[..n + 1]).handed[id] > Run(w, es[..n]).handed[id]
    ensures exists site, at :: AskedBefore(w, es, n, id, site, at) && SiteNamed(es[n].site, site) && at <= Run(w, es[..n]).now
  {
    var v, e := Run(w, es[..n]), es[n];
    assert es[..n + 1][..n] == es[..n];
    assert Run(w, es[..n + 1]) == Step(v, e);
    HandedIsDue(v, e, id);
    RowsAreAsAsked(w, es, n, id);
  }

  lemma HandedIsDue(v: World, e: Event, id: WakeId)
    requires e.Claim? && Step(v, e).handed[id] > v.handed[id]
    ensures id in v.rows && SiteNamed(e.site, v.rows[id].site) && v.rows[id].scheduledAt <= v.now
  {
    assert id in e.ids;
  }

  lemma SameSize(a: set<WakeId>, b: set<WakeId>)
    requires a <= b && |a| == |b|
    ensures a == b
  {
    assert b == a + (b - a);
    assert b - a == {};
  }
}

/** Job-completion webhooks: claimed by marking the row, then posted at most once. */
module JobNotifications {
  import opened Basics

  type Time = int
  type JobId = nat
  type WorkerId = nat

  const HOUR: int := 3600
  const BATCH: nat := 20

  /** `finishedAt` is set exactly on terminal jobs. */
  datatype Job = Job(finishedAt: Option<Time>, notifiedAt: Option<Time>)

  /** `due` is what each worker claimed and has not posted yet; `posts` counts webhook posts attempted. */
  datatype World = World(now: Time, jobs: map<JobId, Job>, due: map<WorkerId, set<JobId>>, posts: multiset<JobId>)

  datatype Event =
    | Tick(d: nat)
    | AddJob(j: JobId)
    | FinishJob(j: JobId)
    | ClaimDue(worker: WorkerId, locked: set<JobId>, ids: set<JobId>)
    | Post(worker: WorkerId, j: JobId)
    | Stop(worker: WorkerId)

  function Ready(w: World): set<JobId> {
    set j | j in w.jobs && w.jobs[j].finishedAt.Some? && w.jobs[j].notifiedAt.None? && w.jobs[j].finishedAt.value > w.now - HOUR
  }

  /** ORDER BY finished_at LIMIT 20 SKIP LOCKED. */
  ghost predicate Picks(w: World, locked: set<JobId>, ids: set<JobId>) {
    var free := Ready(w) - locked;
    && ids <= free
    && |ids| == (if |free| < BATCH then |free| else BATCH)
    && forall i, j :: i in ids && j in free - ids ==> w.jobs[i].finishedAt.value <= w.jobs[j].finishedAt.value
  }

  ghost function Step(w: World, e: Event): World {
    match e
    case Tick(d) => w.(now := w.now + d)
    case AddJob(j) => if j in w.jobs then w else w.(jobs := w.jobs[j := Job(None, None)])
    case FinishJob(j) =>
      if j !in w.jobs || w.jobs[j].finishedAt.Some? then w else w.(jobs := w.jobs[j := w.jobs[j].(finishedAt := Some(w.now))])
    case ClaimDue(worker, locked, ids) =>
      if worker in w.due || !Picks(w, locked, ids) then w
      else w.(jobs := map j | j in w.jobs :: if j in ids then w.jobs[j].(notifiedAt := Some(w.now)) else w.jobs[j],
              due := w.due[worker := ids])
    case Post(worker, j) =>
      if worker !in w.due || j !in w.due[worker] then w
      else w.(due := w.due[worker := w.due[worker] - {j}], posts := w.posts + multiset{j})
    case Stop(worker) => w.(due := w.due - {worker})
  }

  ghost function Run(w: World, es: seq<Event>): World {
    if es == [] then w else Step(Run(w, es[..|es| - 1]), es[|es| - 1])
  }

  ghost predicate Init(w: World) { w.jobs == map[] && w.due == map[] && w.posts == multiset{} }

  ghost predicate Notified(w: World, j: JobId) { j in w.jobs && w.jobs[j].notifiedAt.Some? && w.jobs[j].finishedAt.Some? }

  /** A job is in one worker's hands, or posted once, or neither; and marked in the first two cases. */
  ghost predicate Inv(w: World) {
    && (forall j :: w.posts[j] <= 1 && (w.posts[j] == 1 ==> Notified(w, j)))
    && (forall a, j :: a in w.due && j in w.due[a] ==> Notified(w, j) && w.posts[j] == 0)
    && (forall a, b, j :: a in w.due && b in w.due && j in w.due[a] && j in w.due[b] ==> a == b)
  }

  lemma PicksReady(w: World, locked: set<JobId>, ids: set<JobId>)
    requires Picks(w, locked, ids)
    ensures forall j :: j in ids ==> j in w.jobs && w.jobs[j].notifiedAt.None? && w.jobs[j].finishedAt.Some?
  {
  }

  /**
   A claim takes finished jobs of the last hour that were not marked; one it
   leaves, though free, finished no earlier than any of the 20 it took.
   */
  lemma ClaimIsExact(w: World, locked: set<JobId>, ids: set<JobId>, j: JobId)
    requires Picks(w, locked, ids) && j in w.jobs && j !in locked
    ensures j in ids ==> w.jobs[j].notifiedAt.None? && w.jobs[j].finishedAt.Some? && w.now - w.jobs[j].finishedAt.value < 3600
    ensures w.jobs[j].notifiedAt.None? && w.jobs[j].finishedAt.Some? && w.now - w.jobs[j].finishedAt.value < 3600 && j !in ids
            ==> |ids| == 20 && forall i :: i in ids ==> i in w.jobs && w.jobs[i].finishedAt.Some?
                                                        && w.jobs[i].finishedAt.value <= w.jobs[j].finishedAt.value
  {
    var free := Ready(w) - locked;
    if |ids| == |free| {
      assert free == ids + (free - ids);
    }
  }

  /** A job that finishes is ready to be claimed for one hour. */
  lemma FinishedIsReady(w: World, j: JobId, d: nat)
    requires j !in w.jobs
    ensures j in Ready(Step(Step(Step(w, AddJob(j)), FinishJob(j)), Tick(d))) <==> d < 3600
  {
    var v := Step(Step(w, AddJob(j)), FinishJob(j));
    assert v.jobs[j] == Job(Some(w.now), None);
  }

  /** Finishing and claiming stamp their rows with the time, and touch no other. */
  lemma RowsAreStamped(w: World, e: Event, j: JobId)
    requires j in w.jobs
    ensures j in Step(w, e).jobs
    ensures Step(w, e).jobs[j] != w.jobs[j] ==>
              || (e == FinishJob(j) && w.jobs[j].finishedAt.None? && Step(w, e).jobs[j] == w.jobs[j].(finishedAt := Some(w.now)))
              || (e.ClaimDue? && j in e.ids && Step(w, e).jobs[j] == w.jobs[j].(notifiedAt := Some(w.now)))
  {
    hide Picks;
  }

  lemma ClaimKeepsInv(w: World, worker: WorkerId, locked: set<JobId>, ids: set<JobId>)
    requires Inv(w) && worker !in w.due && Picks(w, locked, ids)
    ensures Inv(Step(w, ClaimDue(worker, locked, ids)))
  {
    hide Picks;
    PicksReady(w, locked, ids);
    var v := Step(w, ClaimDue(worker, locked, ids));
    assert forall j :: j in ids ==> !Notified(w, j) && w.posts[j] == 0;
    assert forall j :: j in ids ==> Notified(v, j);
    assert forall j :: Notified(w, j) ==> Notified(v, j) && j !in ids;
  }

  lemma PostKeepsInv(w: World, worker: WorkerId, j: JobId)
    requires Inv(w) && worker in w.due && j in w.due[worker]
    ensures Inv(Step(w, Post(worker, j)))
  {
    var v := Step(w, Post(worker, j));
    assert forall i :: v.posts[i] == w.posts[i] + if i == j then 1 else 0;
    assert forall i :: Notified(w, i) ==> Notified(v, i);
    assert forall a :: a in v.due ==> v.due[a] <= w.due[a] && j !in v.due[a];
  }

  lemma StepKeepsInv(w: World, e: Event)
    requires Inv(w)
    ensures Inv(Step(w, e))
  {
    match e
    case ClaimDue(worker, locked, ids) =>
      if worker !in w.due && Picks(w, locked, ids) {
        ClaimKeepsInv(w, worker, locked, ids);
      }
    case Post(worker, j) =>
      if worker in w.due && j in w.due[worker] {
        PostKeepsInv(w, worker, j);
      }
    case _ => assert forall j :: Notified(w, j) ==> Notified(Step(w, e), j);
  }

  /** In every run each job is posted at most once, only after it finished and its row was marked. */
  lemma {:induction false} PostedAtMostOnce(w: World, es: seq<Event>)
    requires Init(w)
    ensures Inv(Run(w, es))
    ensures forall j :: Run(w, es).posts[j] <= 1
    ensures forall j :: Run(w, es).posts[j] == 1 ==> Notified(Run(w, es), j)
  {
    hide Step;
    if es != [] {
      PostedAtMostOnce(w, es[..|es| - 1]);
      StepKeepsInv(Run(w, es[..|es| - 1]), es[|es| - 1]);
    }
  }

  ghost predicate HeldOrPosted(w: World, worker: WorkerId, j: JobId) {
    Inv(w) && ((worker in w.due && j in w.due[worker]) || w.posts[j] == 1)
  }

  lemma StepHeldOrPosted(w: World, e: Event, worker: WorkerId, j: JobId)
    requires HeldOrPosted(w, worker, j) && e != Stop(worker)
    ensures HeldOrPosted(Step(w, e), worker, j)
    ensures e == Post(worker, j) ==> Step(w, e).posts[j] == 1
    ensures w.posts[j] == 1 ==> Step(w, e).posts[j] == 1
  {
    hide Inv;
    StepKeepsInv(w, e);
    PostsAtMostOnce(w, j);
    PostsAtMostOnce(Step(w, e), j);
  }

  lemma PostsAtMostOnce(w: World, j: JobId)
    requires Inv(w)
    ensures w.posts[j] <= 1 && (w.posts[j] == 1 ==> Notified(w, j))
    ensures forall a :: a in w.due && j in w.due[a] ==> w.posts[j] == 0
  {
  }

  lemma {:induction false} StillHeldOrPosted(w: World, es: seq<Event>, worker: WorkerId, j: JobId)
    requires HeldOrPosted(w, worker, j) && forall n :: 0 <= n < |es| ==> es[n] != Stop(worker)
    ensures HeldOrPosted(Run(w, es), worker, j)
    ensures Post(worker, j) in es ==> Run(w, es).posts[j] == 1
  {
    hide Step, HeldOrPosted;
    if es != [] {
      var front, e := es[..|es| - 1], es[|es| - 1];
      StillHeldOrPosted(w, front, worker, j);
      StepHeldOrPosted(Run(w, front), e, worker, j);
      assert es == front + [e];
    }
  }

  /** Whatever else happens, a job that a worker has claimed and gets round to without stopping is posted exactly once,
      and is never ready again. */
  lemma ClaimedIsPosted(w: World, worker: WorkerId, locked: set<JobId>, ids: set<JobId>, j: JobId, es: seq<Event>)
    requires Inv(w) && worker !in w.due && Picks(w, locked, ids) && j in ids
    requires Post(worker, j) in es && forall n :: 0 <= n < |es| ==> es[n] != Stop(worker)
    ensures var v := Run(Step(w, ClaimDue(worker, locked, ids)), es); v.posts[j] == 1 && Notified(v, j) && j !in Ready(v)
  {
    hide Run, Picks;
    var v := Step(w, ClaimDue(worker, locked, ids));
    StepKeepsInv(w, ClaimDue(worker, locked, ids));
    StillHeldOrPosted(v, es, worker, j);
    PostsAtMostOnce(Run(v, es), j);
  }

  /** The worker marks a row before it posts: one that stops in between loses the notification for good. */
  lemma {:induction false} StoppedWorkerLosesPost(w: World, worker: WorkerId, ids: set<JobId>, j: JobId, es: seq<Event>)
    requires Inv(w) && worker in w.due && w.due[worker] == ids && j in ids
    ensures var v := Run(Step(w, Stop(worker)), es); v.posts[j] == 0 && Notified(v, j) && forall a :: a in v.due ==> j !in v.due[a]
  {
    if es == [] {
    } else {
      StoppedWorkerLosesPost(w, worker, ids, j, es[..|es| - 1]);
    }
  }
}
