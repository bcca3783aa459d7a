/** TransitionJob and AdvanceJob as the methods of the store, run alone. */
module JobStore {
  import opened Basics
  import opened Tables
  import Redeem

  datatype Result = Success | NotFound | Invalid

  const JOB_STATE_PATH: seq<State> := [Pending, Bootstrapped, Imaging, PostInstall, Completed]

  /** The position of a state on the happy path; failed and cancelled are not on it. */
  function PathIndex(s: State): (i: int)
    ensures i == -1 || (0 <= i < |JOB_STATE_PATH| && JOB_STATE_PATH[i] == s)
    ensures i == -1 <==> s in {Failed, Cancelled}
  {
    match s
    case Pending => 0
    case Bootstrapped => 1
    case Imaging => 2
    case PostInstall => 3
    case Completed => 4
    case _ => -1
  }

  /** What AdvanceJob leaves behind for a job on the happy path: the later of the two states. */
  function Advanced(db: Db, j: JobId, to: State): Db
    requires j in db.jobs
  {
    if PathIndex(to) <= PathIndex(db.jobs[j].state) then db
    else
      var finished := if to == Completed then Some(db.now) else db.jobs[j].finishedAt;
      db.(jobs := db.jobs[j := db.jobs[j].(state := to, finishedAt := finished)])
  }

  /** Both token checks give the same answers for every other job, and nothing but j's row and the tokens differs. */
  ghost predicate SparesOthers(a: Db, b: Db, j: JobId) {
    && (forall t, i :: i != j ==> (AcceptsInstall(b, t, i) <==> AcceptsInstall(a, t, i)))
    && (forall t, i :: i != j ==> (AcceptsPhoneHome(b, t, i) <==> AcceptsPhoneHome(a, t, i)))
    && a.jobs.Keys == b.jobs.Keys && (forall i :: i in a.jobs && i != j ==> b.jobs[i] == a.jobs[i])
    && a.codes == b.codes && a.minted == b.minted && a.now == b.now
  }

  /**
   What a revocation does to the token rows: exactly the boot tokens on the
   job's code that were not consumed become consumed now; every other row,
   of another job or another purpose, stays as it is.
   */
  lemma RevocationIsExact(db: Db, j: JobId, t: TokenHash)
    requires j in db.jobs && t in db.tokens
    ensures RevokeBootTokens(db, j).tokens.Keys == db.tokens.Keys
    ensures var row, after := db.tokens[t], RevokeBootTokens(db, j).tokens[t];
            if row.consumedAt.None? && row.purpose == Boot && db.jobs[j].code == Some(row.code)
            then after == Token(row.code, Boot, row.expiresAt, Some(db.now)) else after == row
  {
  }

  /** Revoking one job's boot tokens takes none from another: no two jobs share a code. */
  lemma RevocationSparesOthers(db: Db, j: JobId)
    requires Redeem.JobsOk(db)
    ensures SparesOthers(db, RevokeBootTokens(db, j), j)
  {
  }

  lemma TransitionSparesOthers(db: Db, j: JobId, to: State)
    requires Transition(db, j, to).Some?
    ensures SparesOthers(db, Transition(db, j, to).value, j)
    ensures Redeem.JobsOk(db) ==> Redeem.JobsOk(Transition(db, j, to).value)
  {
  }

  lemma AdvanceSparesOthers(db: Db, j: JobId, to: State)
    requires j in db.jobs && PathIndex(db.jobs[j].state) >= 0 && PathIndex(to) >= 0
    ensures SparesOthers(db, Advanced(db, j, to), j)
    ensures Redeem.JobsOk(db) ==> Redeem.JobsOk(Advanced(db, j, to))
  {
  }

  lemma SparingTwice(a: Db, b: Db, c: Db, j: JobId)
    requires SparesOthers(a, b, j) && SparesOthers(b, c, j)
    ensures SparesOthers(a, c, j)
  {
  }

  /** The same for a transition and its revocation together. */
  lemma FinishingSparesOthers(db: Db, moved: Db, j: JobId)
    requires Redeem.JobsOk(db) && Redeem.JobsOk(moved) && SparesOthers(db, moved, j)
    ensures SparesOthers(db, RevokeBootTokens(moved, j), j) && Redeem.JobsOk(RevokeBootTokens(moved, j))
  {
    RevocationSparesOthers(moved, j);
    SparingTwice(db, moved, RevokeBootTokens(moved, j), j);
    hide SparesOthers;
  }

  /** The outcomes of an advance, one by one. */
  lemma AdvanceOutcomes(db: Db, j: JobId, to: State)
    requires Redeem.JobsOk(db) && j in db.jobs && PathIndex(db.jobs[j].state) >= 0 && PathIndex(to) >= 0
    ensures var done := Advanced(db, j, to);
            && SparesOthers(db, done, j) && Redeem.JobsOk(done)
            && SparesOthers(db, RevokeBootTokens(done, j), j) && Redeem.JobsOk(RevokeBootTokens(done, j))
  {
    hide SparesOthers, Redeem.JobsOk;
    AdvanceSparesOthers(db, j, to);
    FinishingSparesOthers(db, Advanced(db, j, to), j);
  }

  lemma NothingChanged(db: Db, j: JobId)
    ensures SparesOthers(db, db, j)
  {
  }

  class Store {
    var db: Db

    constructor (db: Db)
      ensures this.db == db
    {
      this.db := db;
    }

    /** `revokes` says whether the best-effort revocation after a terminal transition gets through. */
    method TransitionJob(j: JobId, to: State, revokes: bool) returns (r: Result)
      modifies this
      ensures r == if j !in old(db).jobs then NotFound
                   else if to in Allowed(old(db).jobs[j].state) then Success else Invalid
      ensures r != Success ==> db == old(db)
      ensures r == Success ==> Transition(old(db), j, to).Some?
      ensures r == Success && !(Terminal(to) && revokes) ==> db == Transition(old(db), j, to).value
      ensures r == Success && Terminal(to) && revokes ==> db == RevokeBootTokens(Transition(old(db), j, to).value, j)
      ensures Redeem.JobsOk(old(db)) ==> SparesOthers(old(db), db, j) && Redeem.JobsOk(db)
    {
      ghost var before := db;
      if j !in db.jobs {
        return NotFound;
      }
      var cur := db.jobs[j].state;
      var ok := to in Allowed(cur);
      if !ok {
        return Invalid;
      }
      var job := db.jobs[j].(state := to);
      if Terminal(to) {
        job := job.(finishedAt := Some(db.now));
      }
      db := db.(jobs := db.jobs[j := job]);
      TransitionSparesOthers(before, j, to);
      if Redeem.JobsOk(before) {
        FinishingSparesOthers(before, db, j);
      }
      if Terminal(to) && revokes {
        db := RevokeBootTokens(db, j);
      }
      return Success;
    }

    /** The position found by the source's search loop over the path. */
    method FindOnPath(s: State) returns (at: int)
      ensures at == PathIndex(s)
    {
      at := -1;
      for i := 0 to |JOB_STATE_PATH|
        invariant at == -1 && forall k :: 0 <= k < i ==> JOB_STATE_PATH[k] != s
      {
        if JOB_STATE_PATH[i] == s {
          return i;
        }
      }
    }

    /**
     From any happy-path state to any happy-path target this succeeds and ends
     at the later of the two, walking every state between. Failed and cancelled
     are single transitions; a failed or cancelled job cannot be advanced.
     */
    method AdvanceJob(j: JobId, to: State, revokes: bool) returns (r: Result)
      modifies this
      ensures PathIndex(to) == -1 ==>
                r == if j !in old(db).jobs then NotFound
                     else if to in Allowed(old(db).jobs[j].state) then Success else Invalid
      ensures PathIndex(to) >= 0 ==>
                r == if j !in old(db).jobs then NotFound
                     else if PathIndex(old(db).jobs[j].state) >= 0 then Success else Invalid
      ensures r != Success ==> db == old(db)
      ensures r == Success && PathIndex(to) == -1 ==>
                db == if revokes then RevokeBootTokens(Transition(old(db), j, to).value, j) else Transition(old(db), j, to).value
      ensures r == Success && PathIndex(to) >= 0 ==>
                var done := Advanced(old(db), j, to);
                db == if done != old(db) && to == Completed && revokes then RevokeBootTokens(done, j) else done
      ensures Redeem.JobsOk(old(db)) ==> SparesOthers(old(db), db, j) && Redeem.JobsOk(db)
    {
      hide SparesOthers, Redeem.JobsOk;
      NothingChanged(db, j);
      if to == Failed || to == Cancelled {
        r := TransitionJob(j, to, revokes);
        return;
      }
      var targetIdx := FindOnPath(to);
      if j !in db.jobs {
        return NotFound;
      }
      var cur := db.jobs[j].state;
      var curIdx := FindOnPath(cur);
      if curIdx < 0 {
        return Invalid;
      }
      ghost var start := db;
      if Redeem.JobsOk(start) {
        AdvanceOutcomes(start, j, to);
      }
      var i := curIdx + 1;
      while i <= targetIdx
        invariant 0 <= curIdx < i && (i <= targetIdx + 1 || i == curIdx + 1)
        invariant i > curIdx + 1 && i == targetIdx + 1 && to == Completed && revokes ==>
                    db == RevokeBootTokens(Advanced(start, j, to), j)
        invariant !(i > curIdx + 1 && i == targetIdx + 1 && to == Completed && revokes) ==>
                    db == Advanced(start, j, JOB_STATE_PATH[i - 1])
      {
        EdgeOnPath(i);
        r := TransitionJob(j, JOB_STATE_PATH[i], revokes);
        assert r == Success;
        i := i + 1;
      }
      return Success;
    }
  }

  /** A job can be failed or cancelled directly from these states only, not from every state that is not terminal. */
  lemma FailedAndCancelledFrom(s: State)
    ensures Failed in Allowed(s) <==> s in {Bootstrapped, Imaging, PostInstall}
    ensures Cancelled in Allowed(s) <==> s in {Pending, Bootstrapped, Imaging}
    ensures (Failed in Allowed(s) && Cancelled in Allowed(s)) <==> s in {Bootstrapped, Imaging}
    ensures !Terminal(s) <==> s in {Pending, Bootstrapped, Imaging, PostInstall}
  {
    match s case Pending => case Bootstrapped => case Imaging => case PostInstall => case _ =>
  }

  /** On the happy path a job moves one state at a time; the only shortcut is from imaging to completed. */
  lemma StepsAlongPath(from: State, to: State)
    requires PathIndex(to) >= 0
    ensures to in Allowed(from) <==>
            PathIndex(from) >= 0 && (PathIndex(to) == PathIndex(from) + 1 || (from == Imaging && to == Completed))
  {
    match from case Pending => case Bootstrapped => case Imaging => case PostInstall => case _ =>
  }

  /** Every consecutive pair of the happy path is in the transition table. */
  lemma EdgeOnPath(i: int)
    requires 0 < i < |JOB_STATE_PATH|
    ensures JOB_STATE_PATH[i] in Allowed(JOB_STATE_PATH[i - 1])
    ensures PathIndex(JOB_STATE_PATH[i]) == i && PathIndex(JOB_STATE_PATH[i - 1]) == i - 1
    ensures Terminal(JOB_STATE_PATH[i]) <==> i == |JOB_STATE_PATH| - 1
  {
  }
}

/**
 TransitionJob as the source really issues it: a SELECT of the state, then an
 UPDATE by id alone. The store's safety results take the two as one step;
 here is what that assumption buys.
 */
module SplitTransition {
  import opened Tables

  type Caller = nat

  datatype InFlight = InFlight(job: JobId, to: State)

  datatype World = World(states: map<JobId, State>, pending: map<Caller, InFlight>)

  datatype Event = Read(c: Caller, j: JobId, to: State) | Write(c: Caller)

  /** A caller that read an allowed state will write, whatever the row says by then. */
  function Step(w: World, e: Event): World {
    match e
    case Read(c, j, to) =>
      if c in w.pending || j !in w.states || to !in Allowed(w.states[j]) then w
      else w.(pending := w.pending[c := InFlight(j, to)])
    case Write(c) =>
      if c !in w.pending then w
      else w.(states := w.states[w.pending[c].job := w.pending[c].to], pending := w.pending - {c})
  }

  function Run(w: World, es: seq<Event>): World {
    if es == [] then w else Step(Run(w, es[..|es| - 1]), es[|es| - 1])
  }

  /** The step reads a job no other caller is about to write, or is about to write to the same state. */
  ghost predicate Agrees(w: World, e: Event) {
    e.Read? ==> forall c :: c in w.pending && w.pending[c].job == e.j ==> w.pending[c].to == e.to
  }

  /** Each step of the run agrees: the overlapping transitions of one job all have the same target. */
  ghost predicate Agreeing(w: World, es: seq<Event>) {
    es == [] || (Agreeing(w, es[..|es| - 1]) && Agrees(Run(w, es[..|es| - 1]), es[|es| - 1]))
  }

  /** Whoever is about to write a job writes what all the others do: an edge from its state, or the state it has. */
  ghost predicate Fresh(w: World) {
    && (forall c :: c in w.pending ==>
          && w.pending[c].job in w.states
          && (w.pending[c].to in Allowed(w.states[w.pending[c].job]) || w.pending[c].to == w.states[w.pending[c].job]))
    && (forall c, d :: c in w.pending && d in w.pending && w.pending[c].job == w.pending[d].job ==> w.pending[c].to == w.pending[d].to)
  }

  lemma {:induction false} AgreeingFresh(w: World, es: seq<Event>)
    requires w.pending == map[] && Agreeing(w, es)
    ensures Fresh(Run(w, es))
  {
    hide Step, Fresh, Agrees;
    if es == [] {
      NobodyPending(w);
    } else {
      AgreeingFresh(w, es[..|es| - 1]);
      StepKeepsFresh(Run(w, es[..|es| - 1]), es[|es| - 1]);
    }
  }

  lemma NobodyPending(w: World)
    requires w.pending == map[]
    ensures Fresh(w)
  {
  }

  lemma StepKeepsFresh(w: World, e: Event)
    requires Fresh(w) && Agrees(w, e)
    ensures Fresh(Step(w, e))
  {
  }

  /** The step moves job j along the table, or not at all, and never out of a terminal state. */
  ghost predicate Follows(w: World, e: Event, j: JobId)
    requires j in w.states
  {
    && j in Step(w, e).states
    && (Step(w, e).states[j] == w.states[j] || Step(w, e).states[j] in Allowed(w.states[j]))
    && (Terminal(w.states[j]) ==> Step(w, e).states[j] == w.states[j])
  }

  /** As long as overlapping calls for a job agree on the target, the two statements follow the table. In particular
      when they never overlap. */
  lemma AgreeingIsSafe(w: World, es: seq<Event>, e: Event, j: JobId)
    requires w.pending == map[] && Agreeing(w, es) && j in Run(w, es).states
    ensures Follows(Run(w, es), e, j)
  {
    hide Run, Agreeing;
    AgreeingFresh(w, es);
  }

  /** Two pending calls with different targets: in every world, one of the two orders of writing leaves the table. */
  lemma DisagreeingIsHarmful(w: World, c: Caller, d: Caller)
    requires c in w.pending && d in w.pending && w.pending[c].job == w.pending[d].job && w.pending[c].to != w.pending[d].to
    ensures var j := w.pending[c].job;
            var a, b := Step(w, Write(c)), Step(w, Write(d));
            j in a.states && j in b.states && !(Follows(a, Write(d), j) && Follows(b, Write(c), j))
  {
    OneWay(w.pending[c].to, w.pending[d].to);
  }

  /** The table only goes up. */
  lemma OneWay(a: State, b: State)
    requires a != b
    ensures !(a in Allowed(b) && b in Allowed(a))
  {
    match a case Pending => case Bootstrapped => case Imaging => case PostInstall => case _ =>
  }

  /** So a read may join the calls under way, with every order of the writes following the table, exactly if it agrees. */
  lemma SafeExactlyIfAgreeing(w: World, e: Event)
    requires Fresh(w) && e.Read? && e.c !in w.pending && e.j in w.states && e.to in Allowed(w.states[e.j])
    ensures Agrees(w, e) <==>
            forall c, d :: WritesJob(Step(w, e), c, e.j) && WritesJob(Step(w, e), d, e.j) && c != d ==>
              Follows(Step(Step(w, e), Write(c)), Write(d), e.j)
  {
    var v := Step(w, e);
    if Agrees(w, e) {
      StepKeepsFresh(w, e);
      forall c, d | WritesJob(v, c, e.j) && WritesJob(v, d, e.j) && c != d
        ensures Follows(Step(v, Write(c)), Write(d), e.j)
      {
        StepKeepsFresh(v, Write(c));
      }
    } else {
      var c :| c in w.pending && w.pending[c].job == e.j && w.pending[c].to != e.to;
      assert WritesJob(v, c, e.j) && WritesJob(v, e.c, e.j);
      DisagreeingIsHarmful(v, c, e.c);
    }
  }

  ghost predicate WritesJob(w: World, c: Caller, j: JobId) { c in w.pending && w.pending[c].job == j && j in w.states }

  /** Two callers both read `imaging`, one completes the job, the other then fails it. */
  lemma InterleavedIsNotSafe()
    ensures var w := World(map[0 := Imaging], map[]);
            var es := [Read(1, 0, Completed), Read(2, 0, Failed), Write(1)];
            && 0 in Run(w, es).states && Run(w, es).states[0] == Completed
            && 0 in Step(Run(w, es), Write(2)).states && Step(Run(w, es), Write(2)).states[0] == Failed
            && !Agreeing(w, es)
  {
    var w := World(map[0 := Imaging], map[]);
    var a, b, c := Read(1, 0, Completed), Read(2, 0, Failed), Write(1);
    assert [a, b, c][..2] == [a, b] && [a, b][..1] == [a] && [a][..0] == [];
    assert Run(w, []) == w;
    var w1 := Run(w, [a]);
    assert w1 == Step(w, a);
    assert 1 in w1.pending && w1.pending[1].job == 0 && w1.pending[1].to == Completed;
    var w2 := Run(w, [a, b]);
    assert w2 == Step(w1, b);
    assert !Agrees(w1, b);
    assert !Agreeing(w, [a, b]);
  }
}
