/**
 The per-operator quota of handleIssueCode: a handler counts the codes its
 operator issued in the last hour, and inserts one more when the count is
 below the limit. Count and insert are separate statements, so handlers can
 overtake each other between the two.
 */
module IssueQuota {
  type Time = int
  type Operator = nat
  type HandlerId = nat

  const HOUR: int := 3600

  datatype Code = Code(issuer: Operator, at: Time)

  /** `passed` holds the handlers that counted below the limit (or failed to count) and have not inserted yet. */
  datatype World = World(now: Time, codes: seq<Code>, passed: map<HandlerId, Operator>)

  datatype Event =
    | Tick(d: nat)
    | Count(h: HandlerId, op: Operator)
    | CountFails(h: HandlerId, op: Operator)
    | Insert(h: HandlerId)
    | GiveUp(h: HandlerId)

  /** Codes of op issued strictly after `since`, up to and including `until`. */
  function IssuedIn(codes: seq<Code>, op: Operator, since: Time, until: Time): nat {
    if codes == [] then 0
    else
      var c := codes[|codes| - 1];
      IssuedIn(codes[..|codes| - 1], op, since, until) + if c.issuer == op && since < c.at <= until then 1 else 0
  }

  ghost function Indices(codes: seq<Code>, op: Operator, since: Time, until: Time): set<nat> {
    set i: nat | i < |codes| && codes[i].issuer == op && since < codes[i].at <= until
  }

  /** It counts the codes of the operator in the window, the start excluded and the end included. */
  lemma {:induction false} IssuedInMeaning(codes: seq<Code>, op: Operator, since: Time, until: Time)
    ensures IssuedIn(codes, op, since, until) == |Indices(codes, op, since, until)|
  {
    if codes != [] {
      var front := codes[..|codes| - 1];
      IssuedInMeaning(front, op, since, until);
      var more := if |front| in Indices(codes, op, since, until) then {|front|} else {};
      assert Indices(codes, op, since, until) == Indices(front, op, since, until) + more;
    }
  }

  /** CountIssuedByActorRecently with a window of one hour. */
  function CountRecent(w: World, op: Operator): nat { IssuedIn(w.codes, op, w.now - HOUR, w.now) }

  function Step(w: World, e: Event, limit: int): World {
    match e
    case Tick(d) => w.(now := w.now + d)
    case Count(h, op) =>
      if h in w.passed || CountRecent(w, op) >= limit then w else w.(passed := w.passed[h := op])
    case CountFails(h, op) => if h in w.passed then w else w.(passed := w.passed[h := op])
    case Insert(h) =>
      if h !in w.passed then w else w.(codes := w.codes + [Code(w.passed[h], w.now)], passed := w.passed - {h})
    case GiveUp(h) => w.(passed := w.passed - {h})
  }

  function Run(w: World, es: seq<Event>, limit: int): World {
    if es == [] then w else Step(Run(w, es[..|es| - 1], limit), es[|es| - 1], limit)
  }

  /** The handlers of one operator between their count and their insert. */
  function InFlight(w: World, op: Operator): set<HandlerId> { set h | h in w.passed && w.passed[h] == op }

  /** Counts succeed, and at no point are more than k handlers of the operator in flight. */
  ghost predicate Orderly(w: World, es: seq<Event>, limit: int, op: Operator, k: nat) {
    && (es != [] ==> Orderly(w, es[..|es| - 1], limit, op, k) && !es[|es| - 1].CountFails?)
    && |InFlight(Run(w, es, limit), op)| <= k
  }

  ghost predicate Init(w: World) { w.codes == [] && w.passed == map[] }

  /**
   No hour-long window holds more than limit + k - 1 codes, and one that can
   still grow leaves room for the handlers in flight.
   */
  ghost predicate WindowOk(w: World, limit: int, op: Operator, k: nat, from: Time) {
    && (IssuedIn(w.codes, op, from, from + HOUR) == 0 || IssuedIn(w.codes, op, from, from + HOUR) <= limit + k - 1)
    && (InFlight(w, op) != {} && w.now <= from + HOUR ==>
          IssuedIn(w.codes, op, from, from + HOUR) + |InFlight(w, op)| <= limit + k - 1)
  }

  ghost predicate PastOnly(w: World) { forall i :: 0 <= i < |w.codes| ==> w.codes[i].at <= w.now }

  lemma {:induction false} RunPastOnly(w: World, es: seq<Event>, limit: int)
    requires Init(w)
    ensures PastOnly(Run(w, es, limit))
  {
    if es != [] {
      RunPastOnly(w, es[..|es| - 1], limit);
    }
  }

  /** A window that reaches up to now holds no more than the last hour does. */
  lemma {:induction false} WindowBelowCount(codes: seq<Code>, op: Operator, from: Time, now: Time)
    requires forall i :: 0 <= i < |codes| ==> codes[i].at <= now
    requires now <= from + HOUR
    ensures IssuedIn(codes, op, from, from + HOUR) <= IssuedIn(codes, op, now - HOUR, now)
  {
    if codes != [] {
      WindowBelowCount(codes[..|codes| - 1], op, from, now);
    }
  }

  lemma InsertMoves(w: World, h: HandlerId, op: Operator)
    requires h in w.passed
    ensures var v := w.(passed := w.passed - {h});
            InFlight(v, op) == InFlight(w, op) - {h}
            && (w.passed[h] == op ==> h in InFlight(w, op) && |InFlight(v, op)| == |InFlight(w, op)| - 1)
            && (w.passed[h] != op ==> InFlight(v, op) == InFlight(w, op))
  {
    var v := w.(passed := w.passed - {h});
    assert InFlight(v, op) == InFlight(w, op) - {h};
  }

  lemma CountKeepsWindow(w: World, h: HandlerId, o: Operator, limit: int, op: Operator, k: nat, from: Time)
    requires PastOnly(w) && WindowOk(w, limit, op, k, from)
    requires |InFlight(Step(w, Count(h, o), limit), op)| <= k
    ensures WindowOk(Step(w, Count(h, o), limit), limit, op, k, from)
  {
    var v := Step(w, Count(h, o), limit);
    if o != op {
      assert InFlight(v, op) == InFlight(w, op);
    } else if v != w && w.now <= from + HOUR {
      WindowBelowCount(w.codes, op, from, w.now);
    }
  }

  lemma InsertKeepsWindow(w: World, h: HandlerId, limit: int, op: Operator, k: nat, from: Time)
    requires PastOnly(w) && WindowOk(w, limit, op, k, from)
    ensures WindowOk(Step(w, Insert(h), limit), limit, op, k, from)
  {
    if h in w.passed {
      var v := Step(w, Insert(h), limit);
      InsertMoves(w, h, op);
      assert v.codes[..|v.codes| - 1] == w.codes;
      assert InFlight(v, op) == InFlight(w.(passed := w.passed - {h}), op);
    }
  }

  lemma StepKeepsWindow(w: World, e: Event, limit: int, op: Operator, k: nat, from: Time)
    requires PastOnly(w) && WindowOk(w, limit, op, k, from)
    requires !e.CountFails? && |InFlight(Step(w, e, limit), op)| <= k
    ensures WindowOk(Step(w, e, limit), limit, op, k, from)
  {
    var v := Step(w, e, limit);
    match e
    case Tick(d) => assert InFlight(v, op) == InFlight(w, op);
    case Count(h, o) => CountKeepsWindow(w, h, o, limit, op, k, from);
    case Insert(h) => InsertKeepsWindow(w, h, limit, op, k, from);
    case GiveUp(h) =>
      if h in w.passed {
        InsertMoves(w, h, op);
      } else {
        assert w.passed - {h} == w.passed;
      }
  }

  lemma {:induction false} WindowInvariant(w: World, es: seq<Event>, limit: int, op: Operator, k: nat, from: Time)
    requires Init(w) && Orderly(w, es, limit, op, k)
    ensures WindowOk(Run(w, es, limit), limit, op, k, from)
  {
    if es == [] {
      assert InFlight(w, op) == {};
    } else {
      WindowInvariant(w, es[..|es| - 1], limit, op, k, from);
      RunPastOnly(w, es[..|es| - 1], limit);
      StepKeepsWindow(Run(w, es[..|es| - 1], limit), es[|es| - 1], limit, op, k, from);
    }
  }

  /**
   With at most k of an operator's handlers between count and insert, and
   counts that succeed, no hour of any history holds more than limit + k - 1
   of that operator's codes; handled one at a time, no more than the limit.
   */
  lemma QuotaHolds(w: World, es: seq<Event>, limit: nat, op: Operator, k: nat, from: Time)
    requires Init(w) && k > 0 && Orderly(w, es, limit, op, k)
    ensures IssuedIn(Run(w, es, limit).codes, op, from, from + 3600) <= limit + k - 1
  {
    WindowInvariant(w, es, limit, op, k, from);
  }

  /** A handler that gives up frees its place and issues nothing any more. */
  lemma GivingUp(w: World, h: HandlerId, limit: int, op: Operator)
    ensures var v := Step(w, GiveUp(h), limit);
            && v.codes == w.codes && InFlight(v, op) == InFlight(w, op) - {h} && Step(v, Insert(h), limit) == v
  {
  }

  // --- the bound is reached, and needs its conditions --------------------------------

  /** n codes issued one after the other. */
  function Serial(n: nat, op: Operator): seq<Event> { if n == 0 then [] else Serial(n - 1, op) + [Count(0, op)] + [Insert(0)] }

  /** n handlers that all count before any of them inserts. */
  function Counts(n: nat, op: Operator): seq<Event> { if n == 0 then [] else Counts(n - 1, op) + [Count(n - 1, op)] }

  function Inserts(n: nat): seq<Event> { if n == 0 then [] else Inserts(n - 1) + [Insert(n - 1)] }

  /** The world with m codes of op issued now and the handlers lo to hi - 1 in flight. */
  function Stage(now: Time, op: Operator, m: nat, lo: nat, hi: nat): World {
    World(now, seq(m, _ => Code(op, now)), map h | h in Handlers(lo, hi) :: op)
  }

  function Handlers(lo: nat, hi: nat): (s: set<HandlerId>)
    ensures forall h: nat :: h in s <==> lo <= h < hi
    ensures lo <= hi ==> |s| == hi - lo
    decreases hi
  {
    if lo < hi then Handlers(lo, hi - 1) + {hi - 1} else {}
  }

  lemma {:induction false} StageCount(now: Time, op: Operator, m: nat, from: Time)
    requires from < now <= from + HOUR
    ensures IssuedIn(seq(m, _ => Code(op, now)), op, from, from + HOUR) == m
  {
    if m > 0 {
      var codes := seq(m, _ => Code(op, now));
      assert codes[..|codes| - 1] == seq(m - 1, _ => Code(op, now));
      StageCount(now, op, m - 1, from);
    }
  }

  lemma StageFlight(now: Time, op: Operator, m: nat, lo: nat, hi: nat)
    requires lo <= hi
    ensures |InFlight(Stage(now, op, m, lo, hi), op)| == hi - lo
  {
    assert InFlight(Stage(now, op, m, lo, hi), op) == Handlers(lo, hi);
  }

  lemma StageCounts(now: Time, op: Operator, m: nat, hi: nat, limit: nat)
    requires m < limit
    ensures Step(Stage(now, op, m, 0, hi), Count(hi, op), limit) == Stage(now, op, m, 0, hi + 1)
  {
    var w := Stage(now, op, m, 0, hi);
    StageCount(now, op, m, now - HOUR);
    assert w.passed[hi := op] == Stage(now, op, m, 0, hi + 1).passed;
  }

  lemma StageInserts(now: Time, op: Operator, m: nat, lo: nat, hi: nat, limit: int)
    requires lo < hi
    ensures Step(Stage(now, op, m, lo, hi), Insert(lo), limit) == Stage(now, op, m + 1, lo + 1, hi)
  {
    var w := Stage(now, op, m, lo, hi);
    assert w.codes + [Code(op, now)] == Stage(now, op, m + 1, lo + 1, hi).codes;
    assert w.passed - {lo} == Stage(now, op, m + 1, lo + 1, hi).passed;
  }

  lemma StageEmpty(now: Time, op: Operator, m: nat)
    ensures Stage(now, op, m, 1, 1) == Stage(now, op, m, 0, 0)
  {
  }

  lemma RunSnoc(w: World, es: seq<Event>, e: Event, limit: int, op: Operator, k: nat)
    ensures Run(w, es + [e], limit) == Step(Run(w, es, limit), e, limit)
    ensures Orderly(w, es, limit, op, k) && !e.CountFails? && |InFlight(Run(w, es + [e], limit), op)| <= k
            ==> Orderly(w, es + [e], limit, op, k)
  {
    assert (es + [e])[..|es + [e]| - 1] == es;
  }

  lemma EmptyRun(w: World, limit: int, op: Operator, k: nat)
    ensures Run(w, [], limit) == w
    ensures |InFlight(w, op)| <= k ==> Orderly(w, [], limit, op, k)
  {
  }

  lemma {:induction false} SerialReaches(w: World, m: nat, limit: nat, op: Operator, k: nat)
    requires w == Stage(w.now, op, 0, 0, 0) && m <= limit && k > 0
    ensures Run(w, Serial(m, op), limit) == Stage(w.now, op, m, 0, 0) && Orderly(w, Serial(m, op), limit, op, k)
  {
    hide Stage, Step, InFlight, Run, Orderly;
    if m == 0 {
      StageFlight(w.now, op, 0, 0, 0);
      EmptyRun(w, limit, op, k);
    } else {
      var es := Serial(m - 1, op);
      SerialReaches(w, m - 1, limit, op, k);
      StageCounts(w.now, op, m - 1, 0, limit);
      StageFlight(w.now, op, m - 1, 0, 1);
      RunSnoc(w, es, Count(0, op), limit, op, k);
      StageInserts(w.now, op, m - 1, 0, 1, limit);
      StageFlight(w.now, op, m, 1, 1);
      RunSnoc(w, es + [Count(0, op)], Insert(0), limit, op, k);
      StageEmpty(w.now, op, m);
    }
  }

  lemma {:induction false} CountsReach(w: World, n: nat, limit: nat, op: Operator, k: nat)
    requires w == Stage(w.now, op, 0, 0, 0) && limit > 0 && n <= k && k > 0
    ensures var es := Serial(limit - 1, op) + Counts(n, op);
            Run(w, es, limit) == Stage(w.now, op, limit - 1, 0, n) && Orderly(w, es, limit, op, k)
  {
    hide Stage, Step, InFlight, Run, Orderly;
    if n == 0 {
      SerialReaches(w, limit - 1, limit, op, k);
      assert Serial(limit - 1, op) + Counts(0, op) == Serial(limit - 1, op);
    } else {
      CountsReach(w, n - 1, limit, op, k);
      var es := Serial(limit - 1, op) + Counts(n - 1, op);
      StageCounts(w.now, op, limit - 1, n - 1, limit);
      StageFlight(w.now, op, limit - 1, 0, n);
      RunSnoc(w, es, Count(n - 1, op), limit, op, k);
      assert Serial(limit - 1, op) + Counts(n, op) == es + [Count(n - 1, op)];
    }
  }

  lemma {:induction false} InsertsReach(w: World, n: nat, limit: nat, op: Operator, k: nat)
    requires w == Stage(w.now, op, 0, 0, 0) && limit > 0 && n <= k && k > 0
    ensures var es := Serial(limit - 1, op) + Counts(k, op) + Inserts(n);
            Run(w, es, limit) == Stage(w.now, op, limit - 1 + n, n, k) && Orderly(w, es, limit, op, k)
  {
    hide Stage, Step, InFlight, Run, Orderly;
    if n == 0 {
      CountsReach(w, k, limit, op, k);
      assert Serial(limit - 1, op) + Counts(k, op) + Inserts(0) == Serial(limit - 1, op) + Counts(k, op);
    } else {
      InsertsReach(w, n - 1, limit, op, k);
      var es := Serial(limit - 1, op) + Counts(k, op) + Inserts(n - 1);
      StageInserts(w.now, op, limit - 1 + n - 1, n - 1, k, limit);
      StageFlight(w.now, op, limit - 1 + n, n, k);
      RunSnoc(w, es, Insert(n - 1), limit, op, k);
      assert Serial(limit - 1, op) + Counts(k, op) + Inserts(n) == es + [Insert(n - 1)];
    }
  }

  /** For every positive limit and k there is an orderly run that issues exactly limit + k - 1 codes at once. */
  lemma BoundIsReached(now: Time, limit: nat, op: Operator, k: nat)
    requires limit > 0 && k > 0
    ensures var w := World(now, [], map[]);
            exists es :: Orderly(w, es, limit, op, k)
                         && IssuedIn(Run(w, es, limit).codes, op, now - 1, now - 1 + HOUR) == limit + k - 1
  {
    var w := World(now, [], map[]);
    assert w == Stage(now, op, 0, 0, 0) by {
      assert Stage(now, op, 0, 0, 0).codes == [] && Stage(now, op, 0, 0, 0).passed == map[];
    }
    InsertsReach(w, k, limit, op, k);
    StageCount(now, op, limit + k - 1, now - 1);
    var es := Serial(limit - 1, op) + Counts(k, op) + Inserts(k);
    assert Run(w, es, limit).codes == seq(limit + k - 1, _ => Code(op, now));
  }

  /** n handlers, one at a time, whose counts all fail. */
  function Failing(n: nat, op: Operator): seq<Event> { if n == 0 then [] else Failing(n - 1, op) + [CountFails(0, op)] + [Insert(0)] }

  lemma {:induction false} FailingReaches(now: Time, n: nat, op: Operator, limit: int)
    ensures Run(Stage(now, op, 0, 0, 0), Failing(n, op), limit) == Stage(now, op, n, 0, 0)
  {
    hide Stage, Step, Run;
    var w := Stage(now, op, 0, 0, 0);
    if n == 0 {
      EmptyRun(w, limit, op, 0);
    } else {
      var es := Failing(n - 1, op);
      FailingReaches(now, n - 1, op, limit);
      RunSnoc(w, es, CountFails(0, op), limit, op, 0);
      RunSnoc(w, es + [CountFails(0, op)], Insert(0), limit, op, 0);
      StageFails(now, op, n - 1, limit);
      StageInserts(now, op, n - 1, 0, 1, limit);
      StageEmpty(now, op, n);
    }
  }

  lemma StageFails(now: Time, op: Operator, m: nat, limit: int)
    ensures Step(Stage(now, op, m, 0, 0), CountFails(0, op), limit) == Stage(now, op, m, 0, 1)
  {
    assert Stage(now, op, m, 0, 0).passed[0 := op] == Stage(now, op, m, 0, 1).passed;
  }

  /** The quota fails open: for every limit and every n, handlers whose counts fail, one at a time, issue n codes at once. */
  lemma FailedCountsIgnoreQuota(now: Time, n: nat, op: Operator, limit: int)
    ensures var w := World(now, [], map[]);
            IssuedIn(Run(w, Failing(n, op), limit).codes, op, now - 1, now - 1 + HOUR) == n
  {
    var w := World(now, [], map[]);
    assert w == Stage(now, op, 0, 0, 0) by {
      assert Stage(now, op, 0, 0, 0).codes == [] && Stage(now, op, 0, 0, 0).passed == map[];
    }
    FailingReaches(now, n, op, limit);
    StageCount(now, op, n, now - 1);
  }
}
