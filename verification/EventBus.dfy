/**
 The in-process event bus (package eventbus): a map from job to subscriber
 channels, each with a 16-slot buffer that drops when full.
 */
module EventBus {
  type JobId = nat
  type ChanId = nat

  const CAPACITY: nat := 16

  datatype Event = Event(job: JobId, payload: nat)

  /** `job` is what the cancel function of the subscription has captured. */
  datatype Channel = Channel(job: JobId, buffer: seq<Event>, closed: bool)

  type Subscribers = map<JobId, set<ChanId>>
  type Channels = map<ChanId, Channel>

  /** A non-blocking send: appended if there is room, dropped otherwise. */
  function Offer(ch: Channel, ev: Event): Channel {
    if |ch.buffer| < CAPACITY then ch.(buffer := ch.buffer + [ev]) else ch
  }

  function SubsOf(subs: Subscribers, j: JobId): set<ChanId> { if j in subs then subs[j] else {} }

  ghost predicate NoEmptySet(subs: Subscribers) { forall j :: j in subs ==> subs[j] != {} }

  /** A channel is registered, under its own job, exactly while it is open. */
  ghost predicate RegisteredIsOpen(subs: Subscribers, chans: Channels) {
    forall j, c :: c in SubsOf(subs, j) <==> c in chans && !chans[c].closed && chans[c].job == j
  }

  ghost predicate WithinCapacity(chans: Channels) { forall c :: c in chans ==> |chans[c].buffer| <= 16 }

  lemma SubscribeKeeps(subs: Subscribers, chans: Channels, job: JobId, ch: ChanId)
    requires NoEmptySet(subs) && RegisteredIsOpen(subs, chans) && ch !in chans
    ensures var more := subs[job := SubsOf(subs, job) + {ch}];
            NoEmptySet(more) && RegisteredIsOpen(more, chans[ch := Channel(job, [], false)])
  {
    var more := subs[job := SubsOf(subs, job) + {ch}];
    assert forall j :: SubsOf(more, j) == if j == job then SubsOf(subs, j) + {ch} else SubsOf(subs, j);
  }

  function Without(subs: Subscribers, job: JobId, ch: ChanId): Subscribers {
    if job !in subs then subs
    else if subs[job] - {ch} == {} then subs - {job} else subs[job := subs[job] - {ch}]
  }

  lemma WithoutMeaning(subs: Subscribers, job: JobId, ch: ChanId)
    ensures forall j :: SubsOf(Without(subs, job, ch), j) == if j == job then SubsOf(subs, j) - {ch} else SubsOf(subs, j)
    ensures NoEmptySet(subs) ==> NoEmptySet(Without(subs, job, ch))
  {
  }

  lemma CancelKeeps(subs: Subscribers, chans: Channels, ch: ChanId)
    requires RegisteredIsOpen(subs, chans) && ch in chans
    ensures RegisteredIsOpen(Without(subs, chans[ch].job, ch), chans[ch := chans[ch].(closed := true)])
    ensures chans[ch].closed ==>
              forall j :: SubsOf(Without(subs, chans[ch].job, ch), j) == SubsOf(subs, j)
  {
    hide Without;
    WithoutMeaning(subs, chans[ch].job, ch);
  }

  lemma SameSubscribers(subs: Subscribers, other: Subscribers)
    requires NoEmptySet(subs) && NoEmptySet(other) && forall j :: SubsOf(subs, j) == SubsOf(other, j)
    ensures subs == other
  {
    forall j
      ensures j in subs <==> j in other
      ensures j in subs ==> subs[j] == other[j]
    {
      assert SubsOf(subs, j) == SubsOf(other, j);
    }
  }

  class Bus {
    var subs: Subscribers
    var chans: Channels

    ghost predicate Valid()
      reads this
    {
      NoEmptySet(subs) && RegisteredIsOpen(subs, chans) && WithinCapacity(chans)
    }

    constructor ()
      ensures Valid() && subs == map[] && chans == map[]
    {
      subs := map[];
      chans := map[];
    }

    method Subscribe(job: JobId, ch: ChanId)
      requires Valid() && ch !in chans
      modifies this
      ensures Valid() && chans == old(chans)[ch := Channel(job, [], false)]
      ensures SubsOf(subs, job) == old(SubsOf(subs, job)) + {ch}
      ensures forall j :: j != job ==> SubsOf(subs, j) == old(SubsOf(subs, j))
    {
      hide NoEmptySet, RegisteredIsOpen;
      SubscribeKeeps(subs, chans, job, ch);
      ghost var more := subs[job := SubsOf(subs, job) + {ch}];
      chans := chans[ch := Channel(job, [], false)];
      if job !in subs {
        subs := subs[job := {}];
      }
      subs := subs[job := subs[job] + {ch}];
      assert subs == more;
    }

    /**
     The cancel function of a subscription: unregisters and closes the
     channel, leaving what is buffered readable. A second call changes nothing
     and panics on the closed channel.
     */
    method Cancel(ch: ChanId) returns (panics: bool)
      requires Valid() && ch in chans
      modifies this
      ensures Valid()
      ensures panics <==> old(chans)[ch].closed
      ensures panics ==> subs == old(subs)
      ensures chans == old(chans)[ch := old(chans)[ch].(closed := true)]
      ensures forall j :: SubsOf(subs, j) == if j == old(chans)[ch].job then old(SubsOf(subs, j)) - {ch} else old(SubsOf(subs, j))
    {
      hide NoEmptySet, RegisteredIsOpen;
      var job := chans[ch].job;
      CancelKeeps(subs, chans, ch);
      WithoutMeaning(subs, job, ch);
      ghost var left := Without(subs, job, ch);
      if chans[ch].closed {
        SameSubscribers(subs, left);
      }
      if job in subs {
        var rest := subs[job] - {ch};
        subs := subs[job := rest];
        if rest == {} {
          subs := subs - {job};
        }
      }
      assert subs == left;
      panics := chans[ch].closed;
      if !panics {
        chans := chans[ch := chans[ch].(closed := true)];
      }
    }

    /** Fans out to every subscriber of the job, in whatever order the map is walked; nobody else notices. */
    method Publish(ev: Event)
      requires Valid()
      modifies this
      ensures Valid() && subs == old(subs) && chans.Keys == old(chans).Keys
      ensures forall c :: c in chans ==>
                chans[c] == if c in SubsOf(subs, ev.job) then Offer(old(chans)[c], ev) else old(chans)[c]
    {
      var left := SubsOf(subs, ev.job);
      ghost var all, start := left, chans;
      SubscribersAreOpen(subs, chans, ev.job);
      while left != {}
        invariant subs == old(subs) && left <= all && Offered(start, chans, all - left, ev)
        decreases left
      {
        hide RegisteredIsOpen, NoEmptySet, WithinCapacity;
        var c :| c in left;
        assert !chans[c].closed;
        if |chans[c].buffer| < CAPACITY {
          chans := chans[c := chans[c].(buffer := chans[c].buffer + [ev])];
        }
        left := left - {c};
      }
      OfferedKeeps(subs, start, chans, all, ev);
    }

    method SubCount(job: JobId) returns (n: nat)
      ensures n == |SubsOf(subs, job)|
    {
      n := if job in subs then |subs[job]| else 0;
    }
  }

  /** Exactly the channels in done have been offered the event. */
  ghost predicate Offered(before: Channels, now: Channels, done: set<ChanId>, ev: Event) {
    && now.Keys == before.Keys
    && forall c :: c in now ==> now[c] == if c in done then Offer(before[c], ev) else before[c]
  }

  lemma SubscribersAreOpen(subs: Subscribers, chans: Channels, job: JobId)
    requires RegisteredIsOpen(subs, chans)
    ensures forall c :: c in SubsOf(subs, job) ==> c in chans && !chans[c].closed
  {
  }

  lemma OfferedKeeps(subs: Subscribers, before: Channels, now: Channels, done: set<ChanId>, ev: Event)
    requires RegisteredIsOpen(subs, before) && WithinCapacity(before) && Offered(before, now, done, ev)
    ensures RegisteredIsOpen(subs, now) && WithinCapacity(now)
  {
  }
}
