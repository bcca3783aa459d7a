/**
 The cross-replica bus (package pgbus): one notify log, and on every replica a
 listener that publishes what it hears to the local bus. A local publish holds
 the bus lock for reading and sends to its subscribers one by one, so several
 publishes overlap; subscribing and cancelling need the lock for writing.
 A notify that fails is delivered on its own replica only, and is taken as
 not sent.
 */
module PgBus {
  import EventBus

  type JobId = EventBus.JobId
  type ReplicaId = nat
  type SubId = nat
  type PublisherId = nat

  const CAPACITY: nat := EventBus.CAPACITY

  /** The listener goroutine; every other publisher delivers a failed notify. */
  const LISTENER: PublisherId := 0

  /** A notification by its place in the log, or the n-th publish of one replica. */
  datatype Item = Logged(index: nat) | Local(replica: ReplicaId, n: nat)

  /** One attempted send: the buffer's depth at the time, and whether the event got in. */
  datatype Offer = Offer(item: Item, depth: nat, accepted: bool)

  datatype Sub = Sub(job: JobId, isOpen: bool, since: nat, offers: seq<Offer>, buffer: seq<Item>, received: seq<Item>)

  /** A publish under way: its place in the replica's publish order and the channels still to be offered the event. */
  datatype Publishing = Publishing(n: nat, remaining: set<SubId>)

  datatype Begun = Begun(item: Item, job: JobId)

  datatype Replica = Replica(connected: bool, next: nat, begun: seq<Begun>, subs: map<SubId, Sub>, active: map<PublisherId, Publishing>)

  datatype World = World(log: seq<JobId>, replicas: map<ReplicaId, Replica>)

  datatype Local =
    | Connect
    | Disconnect
    | SkipBadPayload
    | Deliver
    | NotifyFailed(p: PublisherId, job: JobId)
    | Send(p: PublisherId, s: SubId)
    | EndPublish(p: PublisherId)
    | Subscribe(s: SubId, job: JobId)
    | Cancel(s: SubId)
    | Receive(s: SubId)

  datatype Event = Notify(job: JobId) | At(r: ReplicaId, step: Local) | Start(r: ReplicaId)

  function Targets(r: Replica, job: JobId): set<SubId> { set s | s in r.subs && r.subs[s].isOpen && r.subs[s].job == job }

  /** Taking the read lock and finding the job's subscribers. */
  function Begin(r: Replica, p: PublisherId, item: Item, job: JobId): Replica {
    r.(begun := r.begun + [Begun(item, job)], active := r.active[p := Publishing(|r.begun|, Targets(r, job))])
  }

  function OfferTo(sub: Sub, item: Item): Sub {
    var fits := |sub.buffer| < CAPACITY;
    sub.(offers := sub.offers + [Offer(item, |sub.buffer|, fits)], buffer := if fits then sub.buffer + [item] else sub.buffer)
  }

  function SendOne(r: Replica, p: PublisherId, s: SubId): Replica
    requires p in r.active && s in r.active[p].remaining && s in r.subs && r.active[p].n < |r.begun|
  {
    r.(subs := r.subs[s := OfferTo(r.subs[s], r.begun[r.active[p].n].item)],
       active := r.active[p := r.active[p].(remaining := r.active[p].remaining - {s})])
  }

  function StepLocal(id: ReplicaId, r: Replica, log: seq<JobId>, e: Local): Replica {
    match e
    case Connect => if r.connected || LISTENER in r.active then r else r.(connected := true, next := |log|)
    case Disconnect => r.(connected := false)
    case SkipBadPayload => if r.connected && r.next < |log| && LISTENER !in r.active then r.(next := r.next + 1) else r
    case Deliver =>
      if !r.connected || r.next >= |log| || LISTENER in r.active then r
      else Begin(r, LISTENER, Logged(r.next), log[r.next]).(next := r.next + 1)
    case NotifyFailed(p, job) =>
      if p == LISTENER || p in r.active then r else Begin(r, p, Item.Local(id, |r.begun|), job)
    case Send(p, s) =>
      if p in r.active && s in r.active[p].remaining && s in r.subs && r.active[p].n < |r.begun| then SendOne(r, p, s) else r
    case EndPublish(p) => if p in r.active && r.active[p].remaining == {} then r.(active := r.active - {p}) else r
    case Subscribe(s, job) =>
      if s in r.subs || r.active != map[] then r
      else r.(subs := r.subs[s := Sub(job, true, |r.begun|, [], [], [])])
    case Cancel(s) =>
      if s !in r.subs || !r.subs[s].isOpen || r.active != map[] then r
      else r.(subs := r.subs[s := r.subs[s].(isOpen := false)])
    case Receive(s) =>
      if s !in r.subs || r.subs[s].buffer == [] then r
      else
        var sub := r.subs[s];
        r.(subs := r.subs[s := sub.(buffer := sub.buffer[1..], received := sub.received + [sub.buffer[0]])])
  }

  function Step(w: World, e: Event): World {
    match e
    case Notify(job) => w.(log := w.log + [job])
    case Start(r) => if r in w.replicas then w else w.(replicas := w.replicas[r := Replica(false, |w.log|, [], map[], map[])])
    case At(r, step) =>
      if r !in w.replicas then w else w.(replicas := w.replicas[r := StepLocal(r, w.replicas[r], w.log, step)])
  }

  function Run(w: World, es: seq<Event>): World {
    if es == [] then w else Step(Run(w, es[..|es| - 1]), es[|es| - 1])
  }

  ghost predicate Init(w: World) { w.replicas == map[] }

  // --- the invariant of one replica -------------------------------------------------

  /** The replica's publishes are all different, and its notifications go through in log order. */
  ghost predicate OrderOk(id: ReplicaId, begun: seq<Begun>, next: nat, log: seq<JobId>) {
    && next <= |log|
    && (forall n :: 0 <= n < |begun| ==>
          if begun[n].item.Logged? then begun[n].item.index < next && begun[n].job == log[begun[n].item.index]
          else begun[n].item == Item.Local(id, n))
    && (forall m, n :: 0 <= m < n < |begun| && begun[m].item.Logged? && begun[n].item.Logged? ==>
          begun[m].item.index < begun[n].item.index)
  }

  ghost predicate Offered(offers: seq<Offer>, item: Item) { exists k :: 0 <= k < |offers| && offers[k].item == item }

  /** Publishes under way are different publishes, and the listener's is the newest notification. */
  ghost predicate PublishersOk(begun: seq<Begun>, active: map<PublisherId, Publishing>, next: nat) {
    && (forall p :: p in active ==> active[p].n < |begun|)
    && (forall p, q :: p in active && q in active && active[p].n == active[q].n ==> p == q)
    && (forall p :: p in active ==>
          var item := begun[active[p].n].item;
          if p == LISTENER then item.Logged? && item.index + 1 == next else item.Local?)
  }

  /** An open subscription of the publish's job that has not been offered the event. */
  ghost predicate Awaits(begun: seq<Begun>, n: nat, sub: Sub) {
    n < |begun| && sub.isOpen && sub.since <= n && sub.job == begun[n].job && !Offered(sub.offers, begun[n].item)
  }

  ghost predicate RemainingOk(begun: seq<Begun>, active: map<PublisherId, Publishing>, subs: map<SubId, Sub>) {
    forall p, s :: p in active && s in active[p].remaining ==> s in subs && Awaits(begun, active[p].n, subs[s])
  }

  ghost predicate BegunAfter(begun: seq<Begun>, since: nat, item: Item, job: JobId) {
    exists n :: since <= n < |begun| && begun[n] == Begun(item, job)
  }

  /** The accepted offers, in order. */
  function Accepted(offers: seq<Offer>): seq<Item> {
    if offers == [] then []
    else Accepted(offers[..|offers| - 1]) + if offers[|offers| - 1].accepted then [offers[|offers| - 1].item] else []
  }

  /** Offers of events of the job begun since the subscription, each once, notifications in log order. */
  ghost predicate OffersOk(begun: seq<Begun>, since: nat, job: JobId, offers: seq<Offer>) {
    && since <= |begun|
    && (forall k :: 0 <= k < |offers| ==> BegunAfter(begun, since, offers[k].item, job))
    && (forall j, k :: 0 <= j < k < |offers| ==> Precedes(offers[j].item, offers[k].item))
  }

  /** Different items, and in log order if both are notifications. */
  ghost predicate Precedes(x: Item, y: Item) { x != y && (x.Logged? && y.Logged? ==> x.index < y.index) }

  /** What was received and what is buffered are the accepted offers; only a full buffer refuses. */
  ghost predicate BufferOk(offers: seq<Offer>, received: seq<Item>, buffer: seq<Item>) {
    && Accepted(offers) == received + buffer
    && |buffer| <= CAPACITY
    && forall k :: 0 <= k < |offers| ==> offers[k].depth <= CAPACITY && (offers[k].accepted <==> offers[k].depth < CAPACITY)
  }

  ghost predicate StillComing(active: map<PublisherId, Publishing>, s: SubId, n: nat) {
    exists p :: p in active && active[p].n == n && s in active[p].remaining
  }

  /** No publish since the subscription passed an open subscriber by. */
  ghost predicate NoneMissed(begun: seq<Begun>, active: map<PublisherId, Publishing>, s: SubId, sub: Sub) {
    sub.isOpen ==>
      forall n: nat :: sub.since <= n < |begun| && begun[n].job == sub.job ==>
        Offered(sub.offers, begun[n].item) || StillComing(active, s, n)
  }

  ghost predicate SubOk(begun: seq<Begun>, active: map<PublisherId, Publishing>, s: SubId, sub: Sub) {
    && OffersOk(begun, sub.since, sub.job, sub.offers)
    && BufferOk(sub.offers, sub.received, sub.buffer)
    && NoneMissed(begun, active, s, sub)
  }

  ghost predicate ReplicaOk(id: ReplicaId, r: Replica, log: seq<JobId>) {
    && OrderOk(id, r.begun, r.next, log)
    && PublishersOk(r.begun, r.active, r.next)
    && RemainingOk(r.begun, r.active, r.subs)
    && forall s :: s in r.subs ==> SubOk(r.begun, r.active, s, r.subs[s])
  }

  // --- beginning a publish ---------------------------------------------------------------

  lemma BegunGrows(begun: seq<Begun>, b: Begun, since: nat, job: JobId, offers: seq<Offer>)
    requires OffersOk(begun, since, job, offers)
    ensures OffersOk(begun + [b], since, job, offers)
  {
    forall k | 0 <= k < |offers|
      ensures BegunAfter(begun + [b], since, offers[k].item, job)
    {
      assert BegunAfter(begun, since, offers[k].item, job);
      var n :| since <= n < |begun| && begun[n] == Begun(offers[k].item, job);
      assert (begun + [b])[n] == begun[n];
    }
  }

  /** A new publish is of an item no subscription has been offered. */
  lemma NewItem(id: ReplicaId, begun: seq<Begun>, next: nat, log: seq<JobId>, item: Item, since: nat, job: JobId, offers: seq<Offer>)
    requires OrderOk(id, begun, next, log) && OffersOk(begun, since, job, offers)
    requires item == Logged(next) || item == Item.Local(id, |begun|)
    ensures !Offered(offers, item)
  {
    forall k | 0 <= k < |offers|
      ensures offers[k].item != item
    {
      assert BegunAfter(begun, since, offers[k].item, job);
    }
  }

  /** Item and cursor of a publish that may begin: the next notification for the listener, a local one for others. */
  ghost predicate MayBegin(id: ReplicaId, r: Replica, log: seq<JobId>, p: PublisherId, item: Item, job: JobId, next: nat) {
    && p !in r.active
    && if p == LISTENER then r.next < |log| && item == Logged(r.next) && next == r.next + 1 && job == log[r.next]
       else item == Item.Local(id, |r.begun|) && next == r.next
  }

  lemma BeginKeepsOrder(id: ReplicaId, r: Replica, log: seq<JobId>, p: PublisherId, item: Item, job: JobId, next: nat)
    requires ReplicaOk(id, r, log) && MayBegin(id, r, log, p, item, job, next)
    ensures var v := Begin(r, p, item, job);
            OrderOk(id, v.begun, next, log) && PublishersOk(v.begun, v.active, next)
  {
    hide RemainingOk, SubOk, Targets;
    var v := Begin(r, p, item, job);
    assert forall n :: 0 <= n < |r.begun| ==> v.begun[n] == r.begun[n];
  }

  lemma BeginKeepsRemaining(id: ReplicaId, r: Replica, log: seq<JobId>, p: PublisherId, item: Item, job: JobId, next: nat)
    requires ReplicaOk(id, r, log) && MayBegin(id, r, log, p, item, job, next)
    ensures var v := Begin(r, p, item, job); RemainingOk(v.begun, v.active, v.subs)
  {
    hide OrderOk, PublishersOk, NoneMissed, BufferOk, Offered;
    var v := Begin(r, p, item, job);
    forall q, s | q in v.active && s in v.active[q].remaining
      ensures s in v.subs && Awaits(v.begun, v.active[q].n, v.subs[s])
    {
      if q == p {
        assert SubOk(r.begun, r.active, s, r.subs[s]);
        NewItem(id, r.begun, r.next, log, item, r.subs[s].since, r.subs[s].job, r.subs[s].offers);
      } else {
        assert Awaits(r.begun, r.active[q].n, r.subs[s]);
        assert v.begun[r.active[q].n] == r.begun[r.active[q].n];
      }
    }
  }

  lemma BeginKeepsSub(id: ReplicaId, r: Replica, log: seq<JobId>, p: PublisherId, item: Item, job: JobId, next: nat, s: SubId)
    requires ReplicaOk(id, r, log) && MayBegin(id, r, log, p, item, job, next) && s in r.subs
    ensures var v := Begin(r, p, item, job); SubOk(v.begun, v.active, s, v.subs[s])
  {
    hide OrderOk, PublishersOk, RemainingOk, BufferOk, Offered, OffersOk;
    var v, sub := Begin(r, p, item, job), r.subs[s];
    assert SubOk(r.begun, r.active, s, sub);
    BegunGrows(r.begun, Begun(item, job), sub.since, sub.job, sub.offers);
    forall n: nat | sub.isOpen && sub.since <= n < |v.begun| && v.begun[n].job == sub.job
      ensures Offered(sub.offers, v.begun[n].item) || StillComing(v.active, s, n)
    {
      if n < |r.begun| {
        assert v.begun[n] == r.begun[n];
        if StillComing(r.active, s, n) {
          var q :| q in r.active && r.active[q].n == n && s in r.active[q].remaining;
          assert q in v.active && v.active[q] == r.active[q];
        }
      } else {
        assert p in v.active && v.active[p].n == n && s in v.active[p].remaining;
      }
    }
  }

  lemma BeginKeeps(id: ReplicaId, r: Replica, log: seq<JobId>, p: PublisherId, item: Item, job: JobId, next: nat)
    requires ReplicaOk(id, r, log) && MayBegin(id, r, log, p, item, job, next)
    ensures ReplicaOk(id, Begin(r, p, item, job).(next := next), log)
  {
    hide OrderOk, PublishersOk, RemainingOk, SubOk;
    BeginKeepsOrder(id, r, log, p, item, job, next);
    BeginKeepsRemaining(id, r, log, p, item, job, next);
    forall s | s in r.subs
      ensures var v := Begin(r, p, item, job); SubOk(v.begun, v.active, s, v.subs[s])
    {
      BeginKeepsSub(id, r, log, p, item, job, next, s);
    }
  }

  // --- one send -----------------------------------------------------------------------------

  lemma AcceptedSnoc(offers: seq<Offer>, o: Offer)
    ensures Accepted(offers + [o]) == Accepted(offers) + if o.accepted then [o.item] else []
  {
    assert (offers + [o])[..|offers + [o]| - 1] == offers;
  }

  lemma OfferedSnoc(offers: seq<Offer>, o: Offer)
    ensures forall x :: Offered(offers + [o], x) <==> Offered(offers, x) || x == o.item
  {
    forall x
      ensures Offered(offers + [o], x) <==> Offered(offers, x) || x == o.item
    {
      if Offered(offers, x) {
        var k :| 0 <= k < |offers| && offers[k].item == x;
        assert (offers + [o])[k].item == x;
      }
      assert (offers + [o])[|offers|].item == o.item;
    }
  }

  lemma OfferKeepsBuffer(sub: Sub, item: Item)
    requires BufferOk(sub.offers, sub.received, sub.buffer)
    ensures var out := OfferTo(sub, item); BufferOk(out.offers, out.received, out.buffer)
  {
    hide Accepted;
    AcceptedSnoc(sub.offers, Offer(item, |sub.buffer|, |sub.buffer| < CAPACITY));
  }

  /** The event a publisher is about to send comes after everything the subscription was offered. */
  lemma SendComesAfter(id: ReplicaId, r: Replica, log: seq<JobId>, p: PublisherId, s: SubId, k: nat)
    requires ReplicaOk(id, r, log) && p in r.active && s in r.active[p].remaining && s in r.subs && k < |r.subs[s].offers|
    ensures r.active[p].n < |r.begun| && Precedes(r.subs[s].offers[k].item, r.begun[r.active[p].n].item)
  {
    hide NoneMissed, BufferOk;
    var sub := r.subs[s];
    assert SubOk(r.begun, r.active, s, sub) && Awaits(r.begun, r.active[p].n, sub);
    assert Offered(sub.offers, sub.offers[k].item);
    assert BegunAfter(r.begun, sub.since, sub.offers[k].item, sub.job);
  }

  lemma OfferKeepsOrder(begun: seq<Begun>, sub: Sub, item: Item)
    requires OffersOk(begun, sub.since, sub.job, sub.offers) && BegunAfter(begun, sub.since, item, sub.job)
    requires forall k :: 0 <= k < |sub.offers| ==> Precedes(sub.offers[k].item, item)
    ensures var out := OfferTo(sub, item); OffersOk(begun, out.since, out.job, out.offers)
  {
    hide BegunAfter, Precedes;
    var out := OfferTo(sub, item);
    assert forall k :: 0 <= k < |sub.offers| ==> out.offers[k] == sub.offers[k];
  }

  lemma SendKeepsOffers(id: ReplicaId, r: Replica, log: seq<JobId>, p: PublisherId, s: SubId)
    requires ReplicaOk(id, r, log) && p in r.active && s in r.active[p].remaining && s in r.subs && r.active[p].n < |r.begun|
    ensures var out := OfferTo(r.subs[s], r.begun[r.active[p].n].item);
            OffersOk(r.begun, out.since, out.job, out.offers) && BufferOk(out.offers, out.received, out.buffer)
  {
    hide OrderOk, PublishersOk, NoneMissed, BufferOk, OffersOk, Precedes, Offered;
    var item, sub := r.begun[r.active[p].n].item, r.subs[s];
    assert SubOk(r.begun, r.active, s, sub) && Awaits(r.begun, r.active[p].n, sub);
    assert r.begun[r.active[p].n] == Begun(item, sub.job);
    assert BegunAfter(r.begun, sub.since, item, sub.job);
    forall k: nat | k < |sub.offers|
      ensures Precedes(sub.offers[k].item, item)
    {
      SendComesAfter(id, r, log, p, s, k);
    }
    OfferKeepsOrder(r.begun, sub, item);
    OfferKeepsBuffer(sub, item);
  }

  /** Other publishes under way are of other items. */
  lemma DistinctItems(id: ReplicaId, r: Replica, log: seq<JobId>, p: PublisherId, q: PublisherId)
    requires ReplicaOk(id, r, log) && p in r.active && q in r.active && p != q
    ensures r.active[p].n < |r.begun| && r.active[q].n < |r.begun|
    ensures r.begun[r.active[q].n].item != r.begun[r.active[p].n].item
  {
    hide SubOk, RemainingOk;
  }

  lemma SendKeepsRemaining(id: ReplicaId, r: Replica, log: seq<JobId>, p: PublisherId, s: SubId)
    requires ReplicaOk(id, r, log) && p in r.active && s in r.active[p].remaining && s in r.subs && r.active[p].n < |r.begun|
    ensures var v := SendOne(r, p, s); RemainingOk(v.begun, v.active, v.subs)
  {
    hide OrderOk, PublishersOk, SubOk, Offered;
    var v, sub, item := SendOne(r, p, s), r.subs[s], r.begun[r.active[p].n].item;
    OfferedSnoc(sub.offers, Offer(item, |sub.buffer|, |sub.buffer| < CAPACITY));
    forall q, t | q in v.active && t in v.active[q].remaining
      ensures t in v.subs && Awaits(v.begun, v.active[q].n, v.subs[t])
    {
      assert Awaits(r.begun, r.active[q].n, r.subs[t]);
      if t == s {
        DistinctItems(id, r, log, p, q);
      }
    }
  }

  lemma SendMissesNone(id: ReplicaId, r: Replica, log: seq<JobId>, p: PublisherId, s: SubId, t: SubId)
    requires ReplicaOk(id, r, log) && p in r.active && s in r.active[p].remaining && s in r.subs && r.active[p].n < |r.begun|
    requires t in r.subs
    ensures var v := SendOne(r, p, s); NoneMissed(v.begun, v.active, t, v.subs[t])
  {
    hide OrderOk, PublishersOk, RemainingOk, Offered, OffersOk, BufferOk;
    var v, sub, item := SendOne(r, p, s), r.subs[s], r.begun[r.active[p].n].item;
    OfferedSnoc(sub.offers, Offer(item, |sub.buffer|, |sub.buffer| < CAPACITY));
    assert SubOk(r.begun, r.active, t, r.subs[t]);
    forall n: nat | v.subs[t].isOpen && v.subs[t].since <= n < |v.begun| && v.begun[n].job == v.subs[t].job
      ensures Offered(v.subs[t].offers, v.begun[n].item) || StillComing(v.active, t, n)
    {
      if StillComing(r.active, t, n) {
        var q :| q in r.active && r.active[q].n == n && t in r.active[q].remaining;
        if q != p || t != s {
          assert q in v.active && v.active[q].n == n && t in v.active[q].remaining;
        }
      }
    }
  }

  lemma SendKeeps(id: ReplicaId, r: Replica, log: seq<JobId>, p: PublisherId, s: SubId)
    requires ReplicaOk(id, r, log) && p in r.active && s in r.active[p].remaining && s in r.subs && r.active[p].n < |r.begun|
    ensures ReplicaOk(id, SendOne(r, p, s), log)
  {
    hide OrderOk, RemainingOk, OffersOk, BufferOk, NoneMissed;
    var v := SendOne(r, p, s);
    SendKeepsOffers(id, r, log, p, s);
    SendKeepsRemaining(id, r, log, p, s);
    forall t | t in v.subs
      ensures SubOk(v.begun, v.active, t, v.subs[t])
    {
      assert SubOk(r.begun, r.active, t, r.subs[t]);
      SendMissesNone(id, r, log, p, s, t);
    }
  }

  // --- the other steps ------------------------------------------------------------------------

  lemma EndKeeps(id: ReplicaId, r: Replica, log: seq<JobId>, p: PublisherId)
    requires ReplicaOk(id, r, log) && p in r.active && r.active[p].remaining == {}
    ensures ReplicaOk(id, r.(active := r.active - {p}), log)
  {
    hide OrderOk, OffersOk, BufferOk, Offered, Awaits;
    var active := r.active - {p};
    forall s | s in r.subs
      ensures SubOk(r.begun, active, s, r.subs[s])
    {
      assert SubOk(r.begun, r.active, s, r.subs[s]);
      forall n: nat | StillComing(r.active, s, n)
        ensures StillComing(active, s, n)
      {
        var q :| q in r.active && r.active[q].n == n && s in r.active[q].remaining;
        assert q in active && active[q] == r.active[q];
      }
    }
  }

  /** One subscription is added or changed while no publish is under way. */
  lemma SubKeeps(id: ReplicaId, r: Replica, log: seq<JobId>, s: SubId, sub: Sub)
    requires ReplicaOk(id, r, log) && r.active == map[] && SubOk(r.begun, r.active, s, sub)
    ensures ReplicaOk(id, r.(subs := r.subs[s := sub]), log)
  {
    hide OrderOk, SubOk;
  }

  lemma NewSubOk(r: Replica, s: SubId, job: JobId)
    ensures SubOk(r.begun, r.active, s, Sub(job, true, |r.begun|, [], [], []))
  {
  }

  lemma ReceiveKeeps(id: ReplicaId, r: Replica, log: seq<JobId>, s: SubId)
    requires ReplicaOk(id, r, log) && s in r.subs && r.subs[s].buffer != []
    ensures ReplicaOk(id, StepLocal(id, r, log, Receive(s)), log)
  {
    hide OrderOk, PublishersOk, OffersOk, Offered, Accepted;
    var sub := r.subs[s];
    assert SubOk(r.begun, r.active, s, sub);
    assert sub.received + [sub.buffer[0]] + sub.buffer[1..] == sub.received + sub.buffer;
  }

  /** A longer log, or a cursor moved forward while nothing is being delivered, disturbs nothing. */
  lemma CursorKeeps(id: ReplicaId, r: Replica, log: seq<JobId>, more: seq<JobId>, connected: bool, next: nat)
    requires ReplicaOk(id, r, log) && log <= more && r.next <= next <= |more| && (LISTENER in r.active ==> next == r.next)
    ensures ReplicaOk(id, r.(connected := connected, next := next), more)
  {
    hide SubOk, RemainingOk;
  }

  lemma LocalStepKeeps(id: ReplicaId, r: Replica, log: seq<JobId>, e: Local)
    requires ReplicaOk(id, r, log)
    ensures ReplicaOk(id, StepLocal(id, r, log, e), log)
  {
    hide ReplicaOk, SubOk, SendOne, Begin;
    NextInRange(id, r, log);
    match e
    case Connect => if !r.connected && LISTENER !in r.active { CursorKeeps(id, r, log, log, true, |log|); }
    case Disconnect => CursorKeeps(id, r, log, log, false, r.next);
    case SkipBadPayload =>
      if r.connected && r.next < |log| && LISTENER !in r.active {
        CursorKeeps(id, r, log, log, true, r.next + 1);
      }
    case Deliver =>
      if r.connected && r.next < |log| && LISTENER !in r.active {
        BeginKeeps(id, r, log, LISTENER, Logged(r.next), log[r.next], r.next + 1);
      }
    case NotifyFailed(p, job) =>
      if p != LISTENER && p !in r.active {
        BeginKeeps(id, r, log, p, Item.Local(id, |r.begun|), job, r.next);
        SameNext(r, p, Item.Local(id, |r.begun|), job);
      }
    case Send(p, s) =>
      if p in r.active && s in r.active[p].remaining && s in r.subs && r.active[p].n < |r.begun| {
        SendKeeps(id, r, log, p, s);
      }
    case EndPublish(p) => if p in r.active && r.active[p].remaining == {} { EndKeeps(id, r, log, p); }
    case Subscribe(s, job) =>
      if s !in r.subs && r.active == map[] {
        NewSubOk(r, s, job);
        SubKeeps(id, r, log, s, Sub(job, true, |r.begun|, [], [], []));
      }
    case Cancel(s) =>
      if s in r.subs && r.subs[s].isOpen && r.active == map[] {
        ClosedSubOk(id, r, log, s);
        SubKeeps(id, r, log, s, r.subs[s].(isOpen := false));
      }
    case Receive(s) => if s in r.subs && r.subs[s].buffer != [] { ReceiveKeeps(id, r, log, s); }
  }

  lemma SameNext(r: Replica, p: PublisherId, item: Item, job: JobId)
    ensures Begin(r, p, item, job).(next := r.next) == Begin(r, p, item, job)
  {
  }

  lemma NextInRange(id: ReplicaId, r: Replica, log: seq<JobId>)
    requires ReplicaOk(id, r, log)
    ensures r.next <= |log|
  {
  }

  lemma ClosedSubOk(id: ReplicaId, r: Replica, log: seq<JobId>, s: SubId)
    requires ReplicaOk(id, r, log) && s in r.subs
    ensures SubOk(r.begun, r.active, s, r.subs[s].(isOpen := false))
  {
    assert SubOk(r.begun, r.active, s, r.subs[s]);
  }

  lemma StepKeeps(w: World, e: Event, id: ReplicaId)
    requires forall i :: i in w.replicas ==> ReplicaOk(i, w.replicas[i], w.log)
    requires id in Step(w, e).replicas
    ensures ReplicaOk(id, Step(w, e).replicas[id], Step(w, e).log)
  {
    hide ReplicaOk, StepLocal;
    match e
    case Notify(job) =>
      NextInRange(id, w.replicas[id], w.log);
      CursorKeeps(id, w.replicas[id], w.log, w.log + [job], w.replicas[id].connected, w.replicas[id].next);
    case Start(r) => if r !in w.replicas { NewReplica(r, w.log); }
    case At(r, step) => if r in w.replicas { LocalStepKeeps(r, w.replicas[r], w.log, step); }
  }

  lemma NewReplica(id: ReplicaId, log: seq<JobId>)
    ensures ReplicaOk(id, Replica(false, |log|, [], map[], map[]), log)
  {
  }

  lemma {:induction false} RunOk(w: World, es: seq<Event>)
    requires Init(w)
    ensures forall id :: id in Run(w, es).replicas ==> ReplicaOk(id, Run(w, es).replicas[id], Run(w, es).log)
  {
    hide ReplicaOk, Step;
    if es != [] {
      RunOk(w, es[..|es| - 1]);
      forall id | id in Run(w, es).replicas
        ensures ReplicaOk(id, Run(w, es).replicas[id], Run(w, es).log)
      {
        StepKeeps(Run(w, es[..|es| - 1]), es[|es| - 1], id);
      }
    }
  }

  // --- what a subscriber sees ------------------------------------------------------------------

  /** Everything a subscriber has taken from its channel, then everything still in it. */
  function Stream(sub: Sub): seq<Item> { sub.received + sub.buffer }

  lemma {:induction false} AcceptedInOrder(begun: seq<Begun>, since: nat, job: JobId, offers: seq<Offer>)
    requires OffersOk(begun, since, job, offers)
    ensures forall a :: 0 <= a < |Accepted(offers)| ==>
              BegunAfter(begun, since, Accepted(offers)[a], job) && Offered(offers, Accepted(offers)[a])
    ensures forall a, b :: 0 <= a < b < |Accepted(offers)| ==> Precedes(Accepted(offers)[a], Accepted(offers)[b])
  {
    hide BegunAfter, Precedes;
    if offers != [] {
      var front, o := offers[..|offers| - 1], offers[|offers| - 1];
      assert offers == front + [o];
      AcceptedInOrder(begun, since, job, front);
      OfferedSnoc(front, o);
      forall a | 0 <= a < |Accepted(front)|
        ensures Precedes(Accepted(front)[a], o.item)
      {
        var k :| 0 <= k < |front| && front[k].item == Accepted(front)[a];
        assert offers[k] == front[k];
      }
    }
  }

  /**
   For any number of replicas and subscribers: what a subscriber received plus
   what it has buffered are events of its job whose local publish began after
   it subscribed, no event twice, notifications in the order of the log.
   */
  lemma StreamInOrder(w: World, es: seq<Event>, r: ReplicaId, s: SubId)
    requires Init(w) && r in Run(w, es).replicas && s in Run(w, es).replicas[r].subs
    ensures var v := Run(w, es);
            var sub := v.replicas[r].subs[s];
            && (forall a :: 0 <= a < |Stream(sub)| ==> BegunAfter(v.replicas[r].begun, sub.since, Stream(sub)[a], sub.job))
            && (forall a, b :: 0 <= a < b < |Stream(sub)| ==> Precedes(Stream(sub)[a], Stream(sub)[b]))
            && (forall a :: 0 <= a < |Stream(sub)| && Stream(sub)[a].Logged? ==>
                  Stream(sub)[a].index < |v.log| && v.log[Stream(sub)[a].index] == sub.job)
  {
    hide NoneMissed, RemainingOk, PublishersOk, Accepted, Precedes;
    RunOk(w, es);
    var v := Run(w, es);
    var sub := v.replicas[r].subs[s];
    assert SubOk(v.replicas[r].begun, v.replicas[r].active, s, sub);
    AcceptedInOrder(v.replicas[r].begun, sub.since, sub.job, sub.offers);
  }

  /**
   An event is kept from a subscriber only by a buffer holding 16 events, and
   once no publish is under way an open subscriber has been offered every
   event of its job that reached its local bus since it subscribed.
   */
  lemma DroppedOnlyWhenFull(w: World, es: seq<Event>, r: ReplicaId, s: SubId)
    requires Init(w) && r in Run(w, es).replicas && s in Run(w, es).replicas[r].subs
    ensures var bus := Run(w, es).replicas[r];
            var sub := bus.subs[s];
            && (forall k :: 0 <= k < |sub.offers| && !sub.offers[k].accepted ==> sub.offers[k].depth == 16)
            && (forall k :: 0 <= k < |sub.offers| && sub.offers[k].accepted ==> sub.offers[k].item in Stream(sub))
            && (sub.isOpen && bus.active == map[] ==>
                  forall n: nat :: sub.since <= n < |bus.begun| && bus.begun[n].job == sub.job ==> Offered(sub.offers, bus.begun[n].item))
  {
    hide OffersOk, RemainingOk, PublishersOk, OrderOk;
    RunOk(w, es);
    var bus := Run(w, es).replicas[r];
    assert SubOk(bus.begun, bus.active, s, bus.subs[s]);
    AcceptedKept(bus.subs[s].offers);
  }

  lemma {:induction false} AcceptedKept(offers: seq<Offer>)
    ensures forall k :: 0 <= k < |offers| && offers[k].accepted ==> offers[k].item in Accepted(offers)
  {
    if offers != [] {
      AcceptedKept(offers[..|offers| - 1]);
    }
  }

  /** No send is ever about to hit a closed channel. */
  lemma NoSendOnClosed(w: World, es: seq<Event>, r: ReplicaId, p: PublisherId, s: SubId)
    requires Init(w) && r in Run(w, es).replicas
    requires p in Run(w, es).replicas[r].active && s in Run(w, es).replicas[r].active[p].remaining
    ensures s in Run(w, es).replicas[r].subs && Run(w, es).replicas[r].subs[s].isOpen
  {
    RunOk(w, es);
  }

  ghost predicate Before(items: seq<Item>, x: Item, y: Item) {
    exists a, b :: 0 <= a < b < |items| && items[a] == x && items[b] == y
  }

  /** Any two replicas agree on the order of the events both deliver. */
  lemma ReplicasAgree(w: World, es: seq<Event>, q: ReplicaId, r: ReplicaId, s: SubId, t: SubId, x: Item, y: Item)
    requires Init(w) && q != r
    requires q in Run(w, es).replicas && s in Run(w, es).replicas[q].subs
    requires r in Run(w, es).replicas && t in Run(w, es).replicas[r].subs
    requires Before(Stream(Run(w, es).replicas[q].subs[s]), x, y)
    requires x in Stream(Run(w, es).replicas[r].subs[t]) && y in Stream(Run(w, es).replicas[r].subs[t])
    ensures Before(Stream(Run(w, es).replicas[r].subs[t]), x, y)
  {
    var here, there := Stream(Run(w, es).replicas[q].subs[s]), Stream(Run(w, es).replicas[r].subs[t]);
    OnlyOwnLocals(w, es, q, s);
    OnlyOwnLocals(w, es, r, t);
    StreamInOrder(w, es, q, s);
    StreamInOrder(w, es, r, t);
    hide Run, Stream, BegunAfter;
    var a, b :| 0 <= a < b < |here| && here[a] == x && here[b] == y;
    var i :| 0 <= i < |there| && there[i] == x;
    var j :| 0 <= j < |there| && there[j] == y;
    assert Precedes(here[a], here[b]);
    assert x.Logged? && y.Logged?;
    assert i < j;
  }

  lemma OnlyOwnLocals(w: World, es: seq<Event>, r: ReplicaId, s: SubId)
    requires Init(w) && r in Run(w, es).replicas && s in Run(w, es).replicas[r].subs
    ensures forall x :: x in Stream(Run(w, es).replicas[r].subs[s]) && x.Local? ==> x.replica == r
  {
    RunOk(w, es);
    StreamInOrder(w, es, r, s);
    var bus := Run(w, es).replicas[r];
    var sub := bus.subs[s];
    hide Run, ReplicaOk;
    assert OrderOk(r, bus.begun, bus.next, Run(w, es).log) by {
      OrderOf(w, es, r);
    }
    forall x | x in Stream(sub) && x.Local?
      ensures x.replica == r
    {
      var a :| 0 <= a < |Stream(sub)| && Stream(sub)[a] == x;
      assert BegunAfter(bus.begun, sub.since, Stream(sub)[a], sub.job);
    }
  }

  lemma OrderOf(w: World, es: seq<Event>, r: ReplicaId)
    requires Init(w) && r in Run(w, es).replicas
    ensures OrderOk(r, Run(w, es).replicas[r].begun, Run(w, es).replicas[r].next, Run(w, es).log)
  {
    RunOk(w, es);
  }

  /** Between two moments the listener of r neither loses its connection nor meets a payload it cannot read. */
  ghost predicate Listens(es: seq<Event>, r: ReplicaId) {
    forall n :: 0 <= n < |es| ==> es[n] != At(r, Disconnect) && es[n] != At(r, SkipBadPayload)
  }

  /** Every notification from index `from` up to the replica's cursor has been published locally. */
  ghost predicate HeardSince(bus: Replica, log: seq<JobId>, from: nat, mark: nat) {
    && bus.connected && from <= bus.next <= |log| && mark <= |bus.begun|
    && forall m: nat :: from <= m < bus.next ==> BegunAfter(bus.begun, mark, Logged(m), log[m])
  }

  lemma StepHears(id: ReplicaId, bus: Replica, log: seq<JobId>, e: Local, from: nat, mark: nat)
    requires HeardSince(bus, log, from, mark) && e != Disconnect && e != SkipBadPayload
    ensures HeardSince(StepLocal(id, bus, log, e), log, from, mark)
  {
    var now := StepLocal(id, bus, log, e);
    forall m: nat | from <= m < now.next
      ensures BegunAfter(now.begun, mark, Logged(m), log[m])
    {
      if m < bus.next {
        assert BegunAfter(bus.begun, mark, Logged(m), log[m]);
        var n :| mark <= n < |bus.begun| && bus.begun[n] == Begun(Logged(m), log[m]);
        assert now.begun[n] == bus.begun[n];
      } else {
        assert now.begun[|bus.begun|] == Begun(Logged(m), log[m]);
      }
    }
  }

  lemma LogGrows(bus: Replica, log: seq<JobId>, job: JobId, from: nat, mark: nat)
    requires HeardSince(bus, log, from, mark)
    ensures HeardSince(bus, log + [job], from, mark)
  {
    forall m: nat | from <= m < bus.next
      ensures BegunAfter(bus.begun, mark, Logged(m), (log + [job])[m])
    {
      assert BegunAfter(bus.begun, mark, Logged(m), log[m]);
    }
  }

  lemma {:induction false} ListenerHearsAll(w: World, es: seq<Event>, r: ReplicaId)
    requires r in w.replicas && w.replicas[r].connected && w.replicas[r].next <= |w.log| && Listens(es, r)
    ensures var v := Run(w, es);
            r in v.replicas && HeardSince(v.replicas[r], v.log, w.replicas[r].next, |w.replicas[r].begun|)
  {
    hide StepLocal, HeardSince;
    if es == [] {
      NothingToHear(w.replicas[r], w.log);
    } else {
      var front, e := es[..|es| - 1], es[|es| - 1];
      assert forall n :: 0 <= n < |front| ==> front[n] == es[n];
      ListenerHearsAll(w, front, r);
      var v := Run(w, front);
      match e
      case Notify(job) => LogGrows(v.replicas[r], v.log, job, w.replicas[r].next, |w.replicas[r].begun|);
      case Start(_) =>
      case At(q, step) =>
        if q == r {
          StepHears(r, v.replicas[r], v.log, step, w.replicas[r].next, |w.replicas[r].begun|);
        }
    }
  }

  lemma NothingToHear(bus: Replica, log: seq<JobId>)
    requires bus.connected && bus.next <= |log|
    ensures HeardSince(bus, log, bus.next, |bus.begun|)
  {
  }

  /**
   While a replica's listener stays connected, every notification up to its
   cursor reaches every subscriber of its job that was there before: once no
   publish is under way it has been offered, and only a full buffer can have
   refused it.
   */
  lemma NotificationsArrive(w: World, before: seq<Event>, es: seq<Event>, r: ReplicaId, s: SubId, m: nat)
    requires Init(w) && Listens(es, r) && r in Run(w, before).replicas && Run(w, before).replicas[r].connected
    requires var u, v := Run(w, before).replicas[r], Run(Run(w, before), es);
             && r in v.replicas && s in v.replicas[r].subs && v.replicas[r].subs[s].isOpen && v.replicas[r].active == map[]
             && v.replicas[r].subs[s].since <= |u.begun|
             && u.next <= m < v.replicas[r].next && m < |v.log| && v.log[m] == v.replicas[r].subs[s].job
    ensures Offered(Run(Run(w, before), es).replicas[r].subs[s].offers, Logged(m))
  {
    hide Run, Listens, OffersOk, RemainingOk, PublishersOk, OrderOk, BufferOk, Offered;
    var u, v := Run(w, before), Run(Run(w, before), es);
    OrderOf(w, before, r);
    NextInLog(u, w, before, r);
    ListenerHearsAll(u, es, r);
    RunTwice(w, before, es);
    DroppedOnlyWhenFull(w, before + es, r, s);
    assert BegunAfter(v.replicas[r].begun, |u.replicas[r].begun|, Logged(m), v.log[m]);
    var n: nat :| |u.replicas[r].begun| <= n < |v.replicas[r].begun| && v.replicas[r].begun[n] == Begun(Logged(m), v.log[m]);
  }

  lemma NextInLog(u: World, w: World, before: seq<Event>, r: ReplicaId)
    requires Init(w) && u == Run(w, before) && r in u.replicas
    ensures u.replicas[r].next <= |u.log|
  {
    hide Run;
    OrderOf(w, before, r);
  }

  lemma {:induction false} RunTwice(w: World, a: seq<Event>, b: seq<Event>)
    ensures Run(Run(w, a), b) == Run(w, a + b)
  {
    hide Step;
    if b == [] {
      assert a + b == a;
    } else {
      RunTwice(w, a, b[..|b| - 1]);
      assert (a + b)[..|a + b| - 1] == a + b[..|b| - 1];
    }
  }

  /** An idle listener that is behind always gets on: a readable payload is published to the open subscribers of its
      job, one it cannot read is passed over with nobody noticing. */
  lemma ListenerGoesOn(id: ReplicaId, bus: Replica, log: seq<JobId>)
    requires bus.connected && bus.next < |log| && LISTENER !in bus.active
    ensures StepLocal(id, bus, log, SkipBadPayload) == bus.(next := bus.next + 1)
    ensures var now := StepLocal(id, bus, log, Deliver);
            && now.next == bus.next + 1 && now.subs == bus.subs && now.begun == bus.begun + [Begun(Logged(bus.next), log[bus.next])]
            && LISTENER in now.active
            && forall s :: s in now.active[LISTENER].remaining <==> s in bus.subs && bus.subs[s].isOpen && bus.subs[s].job == log[bus.next]
  {
  }

  /** A publish whose notify failed goes to the open subscribers of its job on its own replica, under an item no other has. */
  lemma FailedNotifyIsLocal(w: World, r: ReplicaId, p: PublisherId, job: JobId)
    requires r in w.replicas && p != LISTENER && p !in w.replicas[r].active
    ensures var v := Step(w, At(r, NotifyFailed(p, job)));
            var bus, now := w.replicas[r], v.replicas[r];
            && v == w.(replicas := w.replicas[r := now])
            && now.begun == bus.begun + [Begun(Item.Local(r, |bus.begun|), job)] && now.subs == bus.subs
            && p in now.active && now.active[p].n == |bus.begun|
            && forall s :: s in now.active[p].remaining <==> s in bus.subs && bus.subs[s].isOpen && bus.subs[s].job == job
  {
  }

  ghost predicate Closed(bus: Replica, s: SubId, offers: seq<Offer>) {
    s in bus.subs && !bus.subs[s].isOpen && bus.subs[s].offers == offers && forall p :: p in bus.active ==> s !in bus.active[p].remaining
  }

  lemma StepKeepsClosed(id: ReplicaId, bus: Replica, log: seq<JobId>, e: Local, s: SubId, offers: seq<Offer>)
    requires Closed(bus, s, offers)
    ensures Closed(StepLocal(id, bus, log, e), s, offers)
  {
  }

  /** A cancelled subscription is never offered anything again, and never opens again. */
  lemma {:induction false} CancelledHearsNoMore(w: World, after: seq<Event>, r: ReplicaId, s: SubId)
    requires r in w.replicas && s in w.replicas[r].subs && w.replicas[r].active == map[]
    ensures var v := Run(Step(w, At(r, Cancel(s))), after);
            r in v.replicas && Closed(v.replicas[r], s, w.replicas[r].subs[s].offers)
  {
    hide StepLocal, Closed;
    if after == [] {
      CancelCloses(r, w.replicas[r], w.log, s);
    } else {
      var front, e := after[..|after| - 1], after[|after| - 1];
      CancelledHearsNoMore(w, front, r, s);
      var v := Run(Step(w, At(r, Cancel(s))), front);
      if e.At? && e.r == r {
        StepKeepsClosed(r, v.replicas[r], v.log, e.step, s, w.replicas[r].subs[s].offers);
      }
    }
  }

  lemma CancelCloses(id: ReplicaId, bus: Replica, log: seq<JobId>, s: SubId)
    requires s in bus.subs && bus.active == map[]
    ensures Closed(StepLocal(id, bus, log, Cancel(s)), s, bus.subs[s].offers)
  {
  }

  // --- what a lost connection costs -----------------------------------------------------------

  ghost predicate Unheard(begun: seq<Begun>, m: nat) { forall n :: 0 <= n < |begun| ==> begun[n].item != Logged(m) }

  /** Not heard yet, and not to be: the connection is down, or the cursor is past it. */
  ghost predicate Missed(bus: Replica, log: seq<JobId>, m: nat) {
    Unheard(bus.begun, m) && (!bus.connected || (m < bus.next && m < |log|))
  }

  lemma StepMisses(id: ReplicaId, bus: Replica, log: seq<JobId>, e: Local, m: nat)
    requires Missed(bus, log, m) && (e == Connect ==> m < |log|)
    ensures Missed(StepLocal(id, bus, log, e), log, m)
    ensures e != Connect && !bus.connected ==> !StepLocal(id, bus, log, e).connected
  {
  }

  /** Without reconnecting, a replica whose connection is down stays down. */
  lemma {:induction false} StillAway(w: World, mid: seq<Event>, r: ReplicaId, m: nat)
    requires r in w.replicas && !w.replicas[r].connected && Missed(w.replicas[r], w.log, m) && At(r, Connect) !in mid
    ensures var v := Run(w, mid); r in v.replicas && !v.replicas[r].connected && Missed(v.replicas[r], v.log, m)
  {
    hide StepLocal;
    if mid != [] {
      var front, e := mid[..|mid| - 1], mid[|mid| - 1];
      assert mid == front + [e];
      StillAway(w, front, r, m);
      var v := Run(w, front);
      if e.At? && e.r == r {
        StepMisses(r, v.replicas[r], v.log, e.step, m);
      }
    }
  }

  lemma {:induction false} StillMissed(w: World, after: seq<Event>, r: ReplicaId, m: nat)
    requires r in w.replicas && m < |w.log| && Missed(w.replicas[r], w.log, m)
    ensures var v := Run(w, after); r in v.replicas && m < |v.log| && Missed(v.replicas[r], v.log, m)
  {
    hide StepLocal;
    if after != [] {
      var front, e := after[..|after| - 1], after[|after| - 1];
      StillMissed(w, front, r, m);
      var v := Run(w, front);
      if e.At? && e.r == r {
        StepMisses(r, v.replicas[r], v.log, e.step, m);
      }
    }
  }

  /**
   A notification is lost to a replica for good when it was not delivered there
   before the connection went down and was sent before the listener is back:
   whatever follows, no subscriber of that replica is ever offered it.
   */
  lemma MissedWhileAway(w: World, before: seq<Event>, mid: seq<Event>, after: seq<Event>, r: ReplicaId, m: nat)
    requires Init(w) && r in Run(w, before).replicas && At(r, Connect) !in mid
    requires Run(w, before).replicas[r].next <= m < |Run(Step(Run(w, before), At(r, Disconnect)), mid).log|
    ensures var v := Run(Run(Step(Run(w, before), At(r, Disconnect)), mid), after);
            && r in v.replicas && Unheard(v.replicas[r].begun, m)
            && forall s :: s in v.replicas[r].subs ==> !Offered(v.replicas[r].subs[s].offers, Logged(m))
  {
    hide Run, RemainingOk, PublishersOk, NoneMissed, BufferOk;
    OrderOf(w, before, r);
    var down := Step(Run(w, before), At(r, Disconnect));
    StillAway(down, mid, r, m);
    StillMissed(Run(down, mid), after, r, m);
    var all := before + [At(r, Disconnect)] + mid + after;
    AllTogether(w, before, At(r, Disconnect), mid, after);
    RunOk(w, all);
    var bus := Run(w, all).replicas[r];
    forall s | s in bus.subs
      ensures !Offered(bus.subs[s].offers, Logged(m))
    {
      assert SubOk(bus.begun, bus.active, s, bus.subs[s]);
      NotOffered(bus.begun, bus.subs[s], m);
    }
  }

  lemma NotOffered(begun: seq<Begun>, sub: Sub, m: nat)
    requires OffersOk(begun, sub.since, sub.job, sub.offers) && Unheard(begun, m)
    ensures !Offered(sub.offers, Logged(m))
  {
  }

  lemma AllTogether(w: World, a: seq<Event>, e: Event, b: seq<Event>, c: seq<Event>)
    ensures Run(w, a + [e] + b + c) == Run(Run(Step(Run(w, a), e), b), c)
  {
    hide Step;
    RunTwice(w, a + [e] + b, c);
    RunTwice(w, a + [e], b);
    assert (a + [e])[..|a|] == a;
  }
}
