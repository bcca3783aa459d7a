/**
 What every run of the redeem world guarantees, from any initial world: codes
 are consumed once and only properly, a code backs one job, a token hash is
 good for one job, and jobs only move forward along the transition table.
 */
module RedeemSafety {
  import opened Basics
  import opened Net
  import opened Tables
  import opened Redeem

  lemma InitInv(w: World)
    requires Init(w)
    ensures Inv(w) && Backed(w)
  {
  }

  // --- broker jobs and tokens come from consumptions -------------------------------

  ghost predicate WasConsumed(w: World, k: CodeKey) { exists i :: 0 <= i < |w.consumptions| && w.consumptions[i].key == k }

  ghost predicate Backed(w: World) {
    && (forall j :: j in w.db.jobs && w.db.jobs[j].origin == Broker ==>
          w.db.jobs[j].code.Some? && WasConsumed(w, w.db.jobs[j].code.value))
    && (forall i :: 0 <= i < |w.issued| ==> WasConsumed(w, w.issued[i].key))
  }

  lemma BackedCarries(w: World, v: World)
    requires Backed(w) && w.consumptions <= v.consumptions && w.issued == v.issued
    requires forall j :: j in v.db.jobs && v.db.jobs[j].origin == Broker ==>
               j in w.db.jobs && w.db.jobs[j].origin == Broker && (w.db.jobs[j].code.Some? ==> v.db.jobs[j].code == w.db.jobs[j].code)
    ensures Backed(v)
  {
    forall k | WasConsumed(w, k)
      ensures WasConsumed(v, k)
    {
      var i :| 0 <= i < |w.consumptions| && w.consumptions[i].key == k;
      assert v.consumptions[i].key == k;
    }
  }

  lemma HolderConsumed(w: World, h: HandlerId)
    requires Inv(w) && h in w.handlers && (w.handlers[h].pc.CodeConsumed? || w.handlers[h].pc.JobCreated?)
    ensures WasConsumed(w, w.handlers[h].key)
  {
    assert HandlerOk(w, h);
    var i: nat :| HolderAt(w, h, w.handlers[h].key, i);
  }

  lemma StepKeepsBacked(w: World, e: Event)
    requires Inv(w) && Backed(w)
    ensures Backed(Step(w, e))
  {
    hide Inv, HandlerOk;
    var v := Step(w, e);
    if (e.CreateJob? && At(w, e.h, CodeConsumed)) || (e.CreateToken? && e.h in w.handlers && w.handlers[e.h].pc.JobCreated?) {
      HolderConsumed(w, e.h);
      assert forall k :: WasConsumed(w, k) ==> WasConsumed(v, k);
    } else {
      OtherStepsBack(w, e);
      BackedCarries(w, v);
    }
  }

  /** No other step makes a broker job, stores a broker token, or takes a job off its code. */
  lemma OtherStepsBack(w: World, e: Event)
    requires !(e.CreateJob? && At(w, e.h, CodeConsumed))
    requires !(e.CreateToken? && e.h in w.handlers && w.handlers[e.h].pc.JobCreated?)
    ensures w.consumptions <= Step(w, e).consumptions && w.issued == Step(w, e).issued
    ensures forall j :: j in Step(w, e).db.jobs && Step(w, e).db.jobs[j].origin == Broker ==>
              && j in w.db.jobs && w.db.jobs[j].origin == Broker
              && (w.db.jobs[j].code.Some? ==> Step(w, e).db.jobs[j].code == w.db.jobs[j].code)
  {
  }

  lemma {:induction false} Reached(w: World, es: seq<Event>)
    requires Init(w)
    ensures Inv(Run(w, es)) && Backed(Run(w, es))
  {
    hide Inv, Backed, Step;
    InitInv(w);
    if es != [] {
      Reached(w, es[..|es| - 1]);
      StepKeepsInv(Run(w, es[..|es| - 1]), es[|es| - 1]);
      StepKeepsBacked(Run(w, es[..|es| - 1]), es[|es| - 1]);
    }
  }

  /**
   In every run a code is consumed at most once, by a handler whose address
   the code admits, while the row is unredeemed, unlocked and unexpired, and
   a synthetic menu code is never consumed.
   */
  lemma ConsumedOnceAndProperly(w: World, es: seq<Event>)
    requires Init(w)
    ensures var v := Run(w, es);
            && (forall i :: 0 <= i < |v.consumptions| ==> Proper(v.consumptions[i]))
            && (forall i, j :: 0 <= i < j < |v.consumptions| ==> v.consumptions[i].key != v.consumptions[j].key)
            && (forall k :: k in v.db.codes && v.db.codes[k].menu ==> !WasConsumed(v, k))
  {
    Reached(w, es);
  }

  /**
   A code backs at most one job of any origin; a broker job or a boot token
   stored by the broker exists only for a consumed code, one of each at most.
   */
  lemma OneJobOneTokenPerCode(w: World, es: seq<Event>)
    requires Init(w)
    ensures var v := Run(w, es);
            && (forall i, j ::
                  i in v.db.jobs && j in v.db.jobs && v.db.jobs[i].code.Some? && v.db.jobs[i].code == v.db.jobs[j].code ==>
                  i == j)
            && (forall j :: j in v.db.jobs && v.db.jobs[j].origin == Broker ==>
                  v.db.jobs[j].code.Some? && WasConsumed(v, v.db.jobs[j].code.value))
            && (forall i, j :: 0 <= i < j < |v.issued| ==> v.issued[i].key != v.issued[j].key)
            && (forall i :: 0 <= i < |v.issued| ==> WasConsumed(v, v.issued[i].key))
  {
    Reached(w, es);
  }

  // --- how rows evolve ----------------------------------------------------------------

  function Rank(s: State): nat {
    match s case Pending => 0 case Bootstrapped => 1 case Imaging => 2 case PostInstall => 3 case _ => 4
  }

  /** Where the table lets a job get to; PostInstall can no longer be cancelled. */
  predicate Reaches(a: State, b: State) {
    a == b || (Rank(a) < Rank(b) && !(a == PostInstall && b == Cancelled))
  }

  ghost predicate TablePath(p: seq<State>, a: State, b: State) {
    && |p| > 0 && p[0] == a && p[|p| - 1] == b
    && forall i :: 0 <= i < |p| - 1 ==> p[i + 1] in Allowed(p[i])
  }

  lemma {:induction false} PathReaches(p: seq<State>, a: State, b: State)
    requires TablePath(p, a, b)
    ensures Reaches(a, b)
  {
    if |p| > 1 {
      assert p[1] in Allowed(p[0]);
      var q := p[1..];
      forall i | 0 <= i < |q| - 1
        ensures q[i + 1] in Allowed(q[i])
      {
        assert p[i + 1 + 1] in Allowed(p[i + 1]);
      }
      PathReaches(q, p[1], b);
    }
  }

  function PathTo(a: State, b: State): seq<State> {
    if a == b then [a]
    else if b in Allowed(a) then [a, b]
    else match a
      case Pending => if b in Allowed(Bootstrapped) then [a, Bootstrapped, b] else [a, Bootstrapped, Imaging, b]
      case Bootstrapped => [a, Imaging, b]
      case _ => [a]
  }

  /** `Reaches` is exactly the reflexive transitive closure of the transition table. */
  lemma ReachesIsClosure(a: State, b: State)
    ensures Reaches(a, b) <==> exists p :: TablePath(p, a, b)
  {
    if Reaches(a, b) {
      assert TablePath(PathTo(a, b), a, b);
    }
    if p :| TablePath(p, a, b) {
      PathReaches(p, a, b);
    }
  }

  ghost predicate JobEvolves(a: Job, b: Job) {
    && b.machine == a.machine && b.profile == a.profile && b.createdAt == a.createdAt && b.origin == a.origin
    && (a.code.Some? ==> b.code == a.code)
    && Reaches(a.state, b.state)
    && (Terminal(a.state) ==> b == a)
  }

  ghost predicate CodeEvolves(a: Code, b: Code) {
    && b.machine == a.machine && b.profile == a.profile && b.binding == a.binding && b.expiresAt == a.expiresAt && b.menu == a.menu
    && a.attempts <= b.attempts
    && (a.lockedAt.Some? ==> b.lockedAt.Some?)
    && (a.redeemedAt.Some? ==> b.redeemedAt == a.redeemedAt && b.redeemedFrom == a.redeemedFrom)
  }

  ghost predicate TokenEvolves(a: Token, b: Token) {
    && b.code == a.code && b.purpose == a.purpose && b.expiresAt == a.expiresAt
    && (a.consumedAt.Some? ==> b.consumedAt == a.consumedAt)
  }

  /** No row but a reaped token disappears, and every row changes only in its allowed direction. */
  ghost predicate Evolves(a: Db, b: Db) {
    && a.now <= b.now && a.minted <= b.minted
    && (forall k :: k in a.codes ==> k in b.codes && CodeEvolves(a.codes[k], b.codes[k]))
    && (forall j :: j in a.jobs ==> j in b.jobs && JobEvolves(a.jobs[j], b.jobs[j]))
    && (forall t :: t in b.tokens && t in a.minted ==> t in a.tokens && TokenEvolves(a.tokens[t], b.tokens[t]))
  }

  lemma EvolvesTransitive(a: Db, b: Db, c: Db)
    requires Evolves(a, b) && Evolves(b, c)
    ensures Evolves(a, c)
  {
  }

  lemma EvolvesReflexive(a: Db)
    requires TokensOk(a)
    ensures Evolves(a, a)
  {
  }

  lemma CodeSteps(db: Db, k: CodeKey, from: Addr, c: Code)
    requires TokensOk(db)
    ensures ConsumeCode(db, k, from).Some? ==> Evolves(db, ConsumeCode(db, k, from).value)
    ensures InsertCode(db, k, c).Some? ==> Evolves(db, InsertCode(db, k, c).value)
  {
  }

  lemma LockSteps(db: Db, k: CodeKey, cap: nat)
    requires TokensOk(db)
    ensures Evolves(db, IncrementAttempt(db, k, cap))
    ensures Evolves(db, LockExpired(db))
  {
  }

  lemma JobSteps(db: Db, j: JobId, k: CodeKey, created: nat, to: State)
    requires TokensOk(db)
    ensures InsertJob(db, j, k, created).Some? ==> Evolves(db, InsertJob(db, j, k, created).value)
    ensures Transition(db, j, to).Some? ==> Evolves(db, Transition(db, j, to).value)
  {
  }

  lemma TokenSteps(db: Db, t: TokenHash, token: Token, j: JobId, older: nat)
    requires TokensOk(db)
    ensures InsertToken(db, t, token).Some? ==> Evolves(db, InsertToken(db, t, token).value)
    ensures Evolves(db, RevokeBootTokens(db, j))
    ensures Evolves(db, ReapTokens(db, older))
  {
  }

  lemma MintSteps(db: Db, m: Machine, p: Profile, j: JobId, k: CodeKey, t: TokenHash, created: nat, ttl: nat)
    requires TokensOk(db)
    ensures j in db.jobs && !Terminal(db.jobs[j].state) && MintOnJob(db, j, k, t, ttl).Some?
            ==> Evolves(db, MintOnJob(db, j, k, t, ttl).value)
    ensures MintNewJob(db, m, p, j, k, t, created, ttl).Some? ==> Evolves(db, MintNewJob(db, m, p, j, k, t, created, ttl).value)
  {
  }

  lemma StepEvolves(w: World, e: Event)
    requires TokensOk(w.db)
    ensures Evolves(w.db, Step(w, e).db)
  {
    hide Evolves, ConsumeCode, IncrementAttempt, LockExpired, InsertCode, InsertJob, Transition, InsertToken,
         RevokeBootTokens, ReapTokens, MintOnJob, MintNewJob, Gate, TokensOk;
    EvolvesReflexive(w.db);
    match e
    case Tick(d) => TickEvolves(w.db, d);
    case IssueCode(k, m, p, b, ttl) =>
      CodeSteps(w.db, k, NoAddr, Code(m, p, b, w.db.now + ttl, 0, None, None, None, false));
    case CountAttempt(h, cap, _) => if h in w.handlers { LockSteps(w.db, w.handlers[h].key, cap); }
    case Consume(h, _) => if h in w.handlers { CodeSteps(w.db, w.handlers[h].key, w.handlers[h].from, AnyCode()); }
    case CreateJob(h, j, created, _) => if h in w.handlers { JobSteps(w.db, j, w.handlers[h].key, created, Pending); }
    case CreateToken(h, t, ttl, _) =>
      if h in w.handlers {
        TokenSteps(w.db, t, Token(w.handlers[h].key, Boot, w.db.now + ttl, None), 0, 0);
      }
    case LockExpiredCodes => LockSteps(w.db, 0, 0);
    case MenuOnActive(j, k, t, ttl) => MintSteps(w.db, 0, 0, j, k, t, 0, ttl);
    case MenuOnNew(m, p, j, k, t, created, ttl) => MintSteps(w.db, m, p, j, k, t, created, ttl);
    case Move(j, to) => JobSteps(w.db, j, 0, 0, to);
    case Revoke(j) => TokenSteps(w.db, 0, Token(0, Boot, 0, None), j, 0);
    case Reap(older) => TokenSteps(w.db, 0, Token(0, Boot, 0, None), 0, older);
    case _ =>
  }

  function AnyCode(): Code { Code(0, 0, None, 0, 0, None, None, None, false) }

  lemma TickEvolves(db: Db, d: nat)
    requires TokensOk(db)
    ensures Evolves(db, db.(now := db.now + d))
  {
  }

  /**
   Over any run no job moves backwards or leaves the table, a terminal job
   never changes again, a redemption is never undone, and a consumed token
   stays consumed until it is reaped; a reaped hash does not come back.
   */
  lemma {:induction false} RunEvolves(w: World, es: seq<Event>)
    requires Inv(w)
    ensures Evolves(w.db, Run(w, es).db)
  {
    hide Evolves, Step, Inv;
    TokensOf(w);
    if es == [] {
      EvolvesReflexive(w.db);
    } else {
      var v := Run(w, es[..|es| - 1]);
      RunEvolves(w, es[..|es| - 1]);
      RunKeepsInv(w, es[..|es| - 1]);
      TokensOf(v);
      StepEvolves(v, es[|es| - 1]);
      EvolvesTransitive(w.db, v.db, Run(w, es).db);
    }
  }

  lemma TokensOf(w: World)
    requires Inv(w)
    ensures TokensOk(w.db)
  {
  }

  /** finished_at is set exactly on the terminal jobs, in every reachable world. */
  lemma FinishedExactlyWhenTerminal(w: World, es: seq<Event>, j: JobId)
    requires Init(w) && j in Run(w, es).db.jobs
    ensures Run(w, es).db.jobs[j].finishedAt.Some? <==> Terminal(Run(w, es).db.jobs[j].state)
  {
    Reached(w, es);
  }

  /** Only a transition changes a job's state, along an edge of the table. */
  lemma StepIsAnEdge(w: World, e: Event, j: JobId)
    requires j in w.db.jobs
    ensures j in Step(w, e).db.jobs
    ensures var a, b := w.db.jobs[j].state, Step(w, e).db.jobs[j].state;
            b != a ==> b in Allowed(a) && e == Move(j, b)
  {
  }

  /** The states of a job all along a run. */
  ghost function Trace(w: World, es: seq<Event>, j: JobId): seq<State> {
    if es == [] then [StateOf(w, j)] else Trace(w, es[..|es| - 1], j) + [StateOf(Run(w, es), j)]
  }

  function StateOf(w: World, j: JobId): State { if j in w.db.jobs then w.db.jobs[j].state else Pending }

  function DropRepeats(s: seq<State>): seq<State> {
    if |s| <= 1 then s
    else
      var front := DropRepeats(s[..|s| - 1]);
      if s[|s| - 1] == s[|s| - 2] then front else front + [s[|s| - 1]]
  }

  lemma {:induction false} DropRepeatsEnds(s: seq<State>)
    requires s != []
    ensures DropRepeats(s) != [] && DropRepeats(s)[0] == s[0] && DropRepeats(s)[|DropRepeats(s)| - 1] == s[|s| - 1]
  {
    if |s| > 1 {
      DropRepeatsEnds(s[..|s| - 1]);
    }
  }

  /** In every run, whatever transitions interleave, the states of a job form a path in the table. */
  lemma {:induction false} TraceIsAPath(w: World, es: seq<Event>, j: JobId)
    requires j in w.db.jobs
    ensures j in Run(w, es).db.jobs
    ensures TablePath(DropRepeats(Trace(w, es, j)), w.db.jobs[j].state, Run(w, es).db.jobs[j].state)
    ensures |Trace(w, es, j)| == |es| + 1 && Trace(w, es, j)[|es|] == Run(w, es).db.jobs[j].state
  {
    hide Step;
    if es != [] {
      var front := es[..|es| - 1];
      TraceIsAPath(w, front, j);
      StepIsAnEdge(Run(w, front), es[|es| - 1], j);
      var s, t := Trace(w, front, j), Trace(w, es, j);
      assert t[..|t| - 1] == s && t[|t| - 2] == s[|s| - 1];
      DropRepeatsEnds(s);
    }
  }

  // --- tokens ------------------------------------------------------------------------------

  ghost predicate Accepts(db: Db, t: TokenHash, j: JobId) { AcceptsInstall(db, t, j) || AcceptsPhoneHome(db, t, j) }

  /** A token hash accepted for a job now is never accepted for another job, now or later in the run. */
  lemma TokenForOneJobEver(w: World, before: seq<Event>, after: seq<Event>, t: TokenHash, i: JobId, j: JobId)
    requires Init(w)
    requires Accepts(Run(w, before).db, t, i)
    requires Accepts(Run(Run(w, before), after).db, t, j)
    ensures i == j
  {
    var v := Run(w, before);
    var u := Run(v, after);
    Reached(w, before);
    RunKeepsInv(v, after);
    RunEvolves(v, after);
    assert t in v.db.minted;
    assert TokenEvolves(v.db.tokens[t], u.db.tokens[t]) && JobEvolves(v.db.jobs[i], u.db.jobs[i]);
    assert u.db.jobs[i].code == u.db.jobs[j].code;
  }

  /** Once a job is terminal, neither check accepts any token for it, however the run goes on. */
  lemma TerminalRefusesTokens(w: World, before: seq<Event>, after: seq<Event>, t: TokenHash, j: JobId)
    requires Init(w)
    requires j in Run(w, before).db.jobs && Terminal(Run(w, before).db.jobs[j].state)
    ensures !Accepts(Run(Run(w, before), after).db, t, j)
  {
    Reached(w, before);
    RunEvolves(Run(w, before), after);
    assert JobEvolves(Run(w, before).db.jobs[j], Run(Run(w, before), after).db.jobs[j]);
  }

  /** A revoked boot token of a job is never live again. */
  lemma RevokedStaysRevoked(w: World, before: seq<Event>, j: JobId, after: seq<Event>, t: TokenHash)
    requires Init(w)
    requires var v := Run(w, before);
             && j in v.db.jobs && v.db.jobs[j].code.Some? && Terminal(v.db.jobs[j].state)
             && t in v.db.tokens && v.db.tokens[t].code == v.db.jobs[j].code.value && v.db.tokens[t].purpose == Boot
    ensures !Live(Run(Step(Run(w, before), Revoke(j)), after).db, t)
  {
    var v := Run(w, before);
    var u := Step(v, Revoke(j));
    Reached(w, before);
    StepKeepsInv(v, Revoke(j));
    assert u.db.tokens[t].consumedAt.Some? && t in u.db.minted;
    RunEvolves(u, after);
  }

  /** Every token in v that carries code k and did not exist in w was stored by the broker. */
  ghost predicate OnlyBrokerTokens(w: World, v: World, k: CodeKey) {
    && w.issued <= v.issued
    && forall t :: t in v.db.tokens && v.db.tokens[t].code == k && t !in w.db.minted ==>
         exists i :: |w.issued| <= i < |v.issued| && v.issued[i].token == t
  }

  lemma StepAttachesNothing(w: World, v: World, e: Event, j: JobId, k: CodeKey)
    requires Inv(v) && j in v.db.jobs && Terminal(v.db.jobs[j].state) && v.db.jobs[j].code == Some(k)
    requires OnlyBrokerTokens(w, v, k)
    ensures OnlyBrokerTokens(w, Step(v, e), k)
  {
    hide Inv;
    var u := Step(v, e);
    IssuedGrows(v, e);
    forall t | t in u.db.tokens && u.db.tokens[t].code == k && t !in w.db.minted
      ensures exists i :: |w.issued| <= i < |u.issued| && u.issued[i].token == t
    {
      if t in v.db.tokens && v.db.tokens[t].code == k {
        var i :| |w.issued| <= i < |v.issued| && v.issued[i].token == t;
        assert u.issued[i].token == t;
      } else {
        NewTokenIsBrokers(v, e, j, k, t);
        assert u.issued[|v.issued|].token == t;
      }
    }
  }

  lemma IssuedGrows(v: World, e: Event)
    ensures v.issued <= Step(v, e).issued && v.db.minted <= Step(v, e).db.minted
  {
  }

  /** No token carries code k in b that did not carry it in a. */
  ghost predicate NoNewToken(a: Db, b: Db, k: CodeKey) {
    forall t :: t in b.tokens && b.tokens[t].code == k ==> t in a.tokens && a.tokens[t].code == k
  }

  lemma CodeRowsMintNothing(db: Db, k: CodeKey, key: CodeKey, from: Addr, cap: nat, c: Code)
    ensures ConsumeCode(db, key, from).Some? ==> NoNewToken(db, ConsumeCode(db, key, from).value, k)
    ensures NoNewToken(db, IncrementAttempt(db, key, cap), k) && NoNewToken(db, LockExpired(db), k)
    ensures InsertCode(db, key, c).Some? ==> NoNewToken(db, InsertCode(db, key, c).value, k)
  {
  }

  lemma JobRowsMintNothing(db: Db, k: CodeKey, j: JobId, key: CodeKey, created: nat, to: State)
    ensures InsertJob(db, j, key, created).Some? ==> NoNewToken(db, InsertJob(db, j, key, created).value, k)
    ensures Transition(db, j, to).Some? ==> NoNewToken(db, Transition(db, j, to).value, k)
  {
  }

  lemma TokenRowsMintNothing(db: Db, k: CodeKey, j: JobId, older: nat)
    ensures NoNewToken(db, RevokeBootTokens(db, j), k) && NoNewToken(db, ReapTokens(db, older), k)
  {
  }

  /** A menu mint works on a job that is not terminal, or on a new code, so never on the code of a terminal job. */
  lemma MenuMintsElsewhere(v: World, done: JobId, k: CodeKey, e: Event)
    requires JobsOk(v.db) && done in v.db.jobs && Terminal(v.db.jobs[done].state) && v.db.jobs[done].code == Some(k)
    requires e.MenuOnActive? || e.MenuOnNew?
    ensures NoNewToken(v.db, Step(v, e).db, k)
  {
    hide JobsOk, MintOnJob, MintNewJob, NoNewToken;
    SameTokens(v.db, v.db, k);
    match e
    case MenuOnActive(j, key, t, ttl) => if j in v.db.jobs { MintOnJobElsewhere(v.db, done, k, j, key, t, ttl); }
    case MenuOnNew(m, p, j, key, t, created, ttl) => MintNewJobElsewhere(v.db, done, k, m, p, j, key, t, created, ttl);
  }

  lemma MintOnJobElsewhere(db: Db, done: JobId, k: CodeKey, j: JobId, key: CodeKey, t: TokenHash, ttl: nat)
    requires JobsOk(db) && done in db.jobs && Terminal(db.jobs[done].state) && db.jobs[done].code == Some(k)
    requires j in db.jobs
    ensures !Terminal(db.jobs[j].state) && MintOnJob(db, j, key, t, ttl).Some? ==> NoNewToken(db, MintOnJob(db, j, key, t, ttl).value, k)
  {
    assert Redeemed(db, k);
  }

  lemma MintNewJobElsewhere(db: Db, done: JobId, k: CodeKey, m: Machine, p: Profile, j: JobId, key: CodeKey, t: TokenHash,
                            created: nat, ttl: nat)
    requires JobsOk(db) && done in db.jobs && db.jobs[done].code == Some(k)
    ensures MintNewJob(db, m, p, j, key, t, created, ttl).Some? ==>
              NoNewToken(db, MintNewJob(db, m, p, j, key, t, created, ttl).value, k)
  {
    assert Redeemed(db, k);
  }

  lemma OtherStepsMintNothing(v: World, e: Event, k: CodeKey)
    requires !e.MenuOnActive? && !e.MenuOnNew? && !e.CreateToken?
    ensures NoNewToken(v.db, Step(v, e).db, k) && v.issued == Step(v, e).issued
  {
    hide NoNewToken, ConsumeCode, IncrementAttempt, LockExpired, InsertCode, InsertJob, Transition, RevokeBootTokens,
         ReapTokens, Gate;
    SameTokens(v.db, v.db, k);
    match e
    case Tick(d) => SameTokens(v.db, v.db.(now := v.db.now + d), k);
    case IssueCode(key, m, p, b, ttl) =>
      CodeRowsMintNothing(v.db, k, key, NoAddr, 0, Code(m, p, b, v.db.now + ttl, 0, None, None, None, false));
    case CountAttempt(h, cap, _) =>
      if h in v.handlers { CodeRowsMintNothing(v.db, k, v.handlers[h].key, NoAddr, cap, AnyCode()); }
    case Consume(h, _) =>
      if h in v.handlers { CodeRowsMintNothing(v.db, k, v.handlers[h].key, v.handlers[h].from, 0, AnyCode()); }
    case CreateJob(h, j, created, _) =>
      if h in v.handlers { JobRowsMintNothing(v.db, k, j, v.handlers[h].key, created, Pending); }
    case LockExpiredCodes => CodeRowsMintNothing(v.db, k, 0, NoAddr, 0, AnyCode());
    case Move(j, to) => JobRowsMintNothing(v.db, k, j, 0, 0, to);
    case Revoke(j) => TokenRowsMintNothing(v.db, k, j, 0);
    case Reap(older) => TokenRowsMintNothing(v.db, k, 0, older);
    case _ =>
  }

  lemma SameTokens(a: Db, b: Db, k: CodeKey)
    requires a.tokens == b.tokens
    ensures NoNewToken(a, b, k)
  {
  }

  /** A token that appears on the code of a terminal job was stored by a redeem handler. */
  lemma NewTokenIsBrokers(v: World, e: Event, j: JobId, k: CodeKey, t: TokenHash)
    requires Inv(v) && j in v.db.jobs && Terminal(v.db.jobs[j].state) && v.db.jobs[j].code == Some(k)
    requires t in Step(v, e).db.tokens && Step(v, e).db.tokens[t].code == k
    requires t !in v.db.tokens || v.db.tokens[t].code != k
    ensures e.CreateToken? && Step(v, e).issued == v.issued + [Issued(t, k)]
  {
    hide JobsOk, CodesOk, TokensOk, ConsumptionsOk, IssuedOk, HandlerOk, MintOnJob, MintNewJob;
    if e.MenuOnActive? || e.MenuOnNew? {
      MenuMintsElsewhere(v, j, k, e);
    } else if !e.CreateToken? {
      OtherStepsMintNothing(v, e, k);
    }
  }

  /** The menu mint never attaches a new token to a terminal job: what appears on its code later is the broker's own. */
  lemma {:induction false} MenuLeavesTerminalJobs(w: World, es: seq<Event>, j: JobId, k: CodeKey)
    requires Inv(w) && j in w.db.jobs && Terminal(w.db.jobs[j].state) && w.db.jobs[j].code == Some(k)
    ensures OnlyBrokerTokens(w, Run(w, es), k)
  {
    if es != [] {
      var v := Run(w, es[..|es| - 1]);
      MenuLeavesTerminalJobs(w, es[..|es| - 1], j, k);
      RunKeepsInv(w, es[..|es| - 1]);
      RunEvolves(w, es[..|es| - 1]);
      assert JobEvolves(w.db.jobs[j], v.db.jobs[j]);
      StepAttachesNothing(w, v, es[|es| - 1], j, k);
    }
  }

  // --- what succeeds ------------------------------------------------------------------------

  /** When a code can be redeemed from an address. */
  predicate Redeemable(db: Db, key: CodeKey, from: Addr) { Consumable(db, key) && Admits(db.codes[key], from) }

  /** Used from an address outside its binding, a code that is neither spent, locked nor past its expiry counts an attempt. */
  predicate CountsAttempt(db: Db, key: CodeKey, from: Addr) {
    && key in db.codes && db.codes[key].lockedAt.None? && db.codes[key].redeemedAt.None?
    && db.now <= db.codes[key].expiresAt && !Admits(db.codes[key], from)
  }

  ghost function RedeemAlone(w: World, h: HandlerId, key: CodeKey, from: Addr, cap: nat, j: JobId, created: nat, t: TokenHash, ttl: nat): World {
    Finished(Step(Gated(w, h, key, from, cap), MintKey(h, true)), h, j, created, t, ttl)
  }

  /** The handler up to its pre-checks, with the attempt counted if they ask for it. */
  ghost function Gated(w: World, h: HandlerId, key: CodeKey, from: Addr, cap: nat): World {
    Step(Step(Step(w, Arrive(h, key, from)), Lookup(h, true)), CountAttempt(h, cap, Ok))
  }

  /** The three statements after the overlay key is minted. */
  ghost function Finished(w: World, h: HandlerId, j: JobId, created: nat, t: TokenHash, ttl: nat): World {
    Step(Step(Step(w, Consume(h, Ok)), CreateJob(h, j, created, Ok)), CreateToken(h, t, ttl, Ok))
  }

  /** The answer is 200 and exactly these rows differ: the code is spent, the job and its token are there. */
  ghost predicate Granted(db: Db, v: World, h: HandlerId, key: CodeKey, from: Addr, j: JobId, created: nat, t: TokenHash, ttl: nat)
    requires key in db.codes
  {
    var c := db.codes[key];
    && At(v, h, Done(200))
    && v.db == db.(codes := db.codes[key := c.(redeemedAt := Some(db.now), redeemedFrom := Some(from))],
                   jobs := db.jobs[j := Job(c.machine, c.profile, Some(key), Bootstrapped, created, None, Broker)],
                   tokens := db.tokens[t := Token(key, Boot, db.now + ttl, None)],
                   minted := db.minted + {t})
    && (ttl > 0 ==> AcceptsInstall(v.db, t, j) && AcceptsPhoneHome(v.db, t, j))
  }

  ghost predicate Denied(db: Db, v: World, h: HandlerId, key: CodeKey, from: Addr, cap: nat) {
    && At(v, h, Done(if key !in db.codes || CountsAttempt(db, key, from) then 401 else 410))
    && v.db == if CountsAttempt(db, key, from) then IncrementAttempt(db, key, cap) else db
  }

  /**
   A redeem that runs alone and whose calls succeed answers 200 exactly when
   the code is redeemable. It then leaves a bootstrapped job for the code's
   machine and profile and a token that both checks accept for it, and touches
   no other row; otherwise it leaves every row alone, but for an attempt counted against a code used
   from the wrong address.
   */
  lemma RedeemAloneOutcome(w: World, h: HandlerId, key: CodeKey, from: Addr, cap: nat, j: JobId, created: nat, t: TokenHash, ttl: nat)
    requires h !in w.handlers && j !in w.db.jobs && t !in w.db.minted
    ensures var v := RedeemAlone(w, h, key, from, cap, j, created, t, ttl);
            if Redeemable(w.db, key, from) then Granted(w.db, v, h, key, from, j, created, t, ttl) else Denied(w.db, v, h, key, from, cap)
  {
    hide Granted, Finished;
    if Gate(w.db, key, from).Cleared? {
      GateClears(w, h, key, from, cap);
      var minted := Step(Gated(w, h, key, from, cap), MintKey(h, true));
      assert minted == w.(handlers := w.handlers[h := Handler(key, from, KeyMinted)]);
      FinishAlone(minted, h, j, created, t, ttl);
    } else {
      GateRefuses(w, h, key, from, cap);
      DoneStays(Step(Gated(w, h, key, from, cap), MintKey(h, true)), h, j, created, t, ttl);
    }
  }

  /** What each failing call answers, and that a call that reports an error has written nothing. */
  lemma FailedCalls(w: World, h: HandlerId, j: JobId, created: nat, t: TokenHash, ttl: nat, cap: nat)
    requires h in w.handlers
    ensures At(w, h, Arrived) ==> Step(w, Lookup(h, false)) == SetPc(w, h, Done(500))
    ensures At(w, h, Cleared) ==> Step(w, MintKey(h, false)) == SetPc(w, h, Done(502))
    ensures At(w, h, WrongAddress) ==> Step(w, CountAttempt(h, cap, Error)) == SetPc(w, h, Done(401))
    ensures At(w, h, KeyMinted) ==> Step(w, Consume(h, Error)) == SetPc(w, h, Done(410))
    ensures At(w, h, CodeConsumed) ==> Step(w, CreateJob(h, j, created, Error)) == SetPc(w, h, Done(500))
    ensures At(w, h, JobCreated(j)) ==> Step(w, CreateToken(h, t, ttl, Error)) == SetPc(w, h, Done(500))
  {
  }

  /** A call whose reply is lost leaves the rows that success leaves and answers what failure answers; a handler that is
      dropped writes nothing. */
  lemma LostReplies(w: World, h: HandlerId, j: JobId, created: nat, t: TokenHash, ttl: nat, cap: nat)
    requires h in w.handlers
    ensures At(w, h, WrongAddress) ==> Step(w, CountAttempt(h, cap, LostReply)) == Step(w, CountAttempt(h, cap, Ok))
    ensures At(w, h, KeyMinted) ==> Step(w, Consume(h, LostReply)) == SetPc(Step(w, Consume(h, Ok)), h, Done(410))
    ensures At(w, h, CodeConsumed) ==>
              Step(w, CreateJob(h, j, created, LostReply)) == SetPc(Step(w, CreateJob(h, j, created, Ok)), h, Done(500))
    ensures At(w, h, JobCreated(j)) ==>
              Step(w, CreateToken(h, t, ttl, LostReply)) == SetPc(Step(w, CreateToken(h, t, ttl, Ok)), h, Done(500))
    ensures Step(w, Abandon(h)) == SetPc(w, h, Done(0))
  {
  }

  lemma GateRefuses(w: World, h: HandlerId, key: CodeKey, from: Addr, cap: nat)
    requires h !in w.handlers && !Gate(w.db, key, from).Cleared?
    ensures !Redeemable(w.db, key, from)
    ensures var v := Step(Gated(w, h, key, from, cap), MintKey(h, true));
            h in v.handlers && v.handlers[h].pc.Done? && Denied(w.db, v, h, key, from, cap)
  {
    hide IncrementAttempt;
  }

  lemma DoneStays(w: World, h: HandlerId, j: JobId, created: nat, t: TokenHash, ttl: nat)
    requires h in w.handlers && w.handlers[h].pc.Done?
    ensures Finished(w, h, j, created, t, ttl) == w
  {
  }

  lemma GateClears(w: World, h: HandlerId, key: CodeKey, from: Addr, cap: nat)
    requires h !in w.handlers && Gate(w.db, key, from).Cleared?
    ensures Gated(w, h, key, from, cap) == w.(handlers := w.handlers[h := Handler(key, from, Cleared)])
  {
    var v := Step(w, Arrive(h, key, from));
    assert v.handlers[h := Handler(key, from, Cleared)] == w.handlers[h := Handler(key, from, Cleared)];
  }

  lemma FinishAlone(w: World, h: HandlerId, j: JobId, created: nat, t: TokenHash, ttl: nat)
    requires h in w.handlers && w.handlers[h].pc == KeyMinted && w.handlers[h].key in w.db.codes
    requires j !in w.db.jobs && t !in w.db.minted
    ensures var key, from := w.handlers[h].key, w.handlers[h].from;
            var v := Finished(w, h, j, created, t, ttl);
            && (!Consumable(w.db, key) ==> At(v, h, Done(410)) && v.db == w.db)
            && (Consumable(w.db, key) ==> Granted(w.db, v, h, key, from, j, created, t, ttl))
  {
    var c := Step(w, Consume(h, Ok));
    if Consumable(w.db, w.handlers[h].key) {
      var d := Step(c, CreateJob(h, j, created, Ok));
      assert d.handlers[h].pc == JobCreated(j) && d.db.now == w.db.now && d.db.minted == w.db.minted;
    }
  }

  /** A consumed code stays unredeemable, and a code is never redeemable while it is locked. */
  lemma ConsumedForGood(w: World, es: seq<Event>, key: CodeKey, from: Addr)
    requires Inv(w) && (Redeemed(w.db, key) || (key in w.db.codes && w.db.codes[key].lockedAt.Some?))
    ensures !Redeemable(Run(w, es).db, key, from)
  {
    RunEvolves(w, es);
    assert CodeEvolves(w.db.codes[key], Run(w, es).db.codes[key]);
  }

  /** A successful menu mint leaves a token that phone-home accepts for the job, on a code nobody can redeem. */
  lemma MenuMintIsUsable(w: World, m: Machine, p: Profile, j: JobId, k: CodeKey, t: TokenHash, created: nat, ttl: nat)
    requires Inv(w) && ttl > 0
    ensures Active(w.db, j, m, p) && MintOnJob(w.db, j, k, t, ttl).Some? ==>
              var b := MintOnJob(w.db, j, k, t, ttl).value;
              AcceptsPhoneHome(b, t, j) && b.jobs[j].state == w.db.jobs[j].state && b.jobs.Keys == w.db.jobs.Keys
              && b.jobs[j].code.Some? && !Consumable(b, b.jobs[j].code.value)
    ensures MintNewJob(w.db, m, p, j, k, t, created, ttl).Some? ==>
              var b := MintNewJob(w.db, m, p, j, k, t, created, ttl).value;
              AcceptsPhoneHome(b, t, j) && b.jobs[j].state == Pending && Active(b, j, m, p) && !Consumable(b, k)
  {
    if j in w.db.jobs {
      NonTerminal(w.db.jobs[j].state);
    }
  }

  /** The rows a menu mint writes: always one boot token, and a spent code row exactly when the job had no code. */
  lemma MenuMintRows(db: Db, m: Machine, p: Profile, j: JobId, k: CodeKey, t: TokenHash, created: nat, ttl: nat)
    ensures Active(db, j, m, p) && MintOnJob(db, j, k, t, ttl).Some? ==>
              var b := MintOnJob(db, j, k, t, ttl).value;
              var code := if db.jobs[j].code.Some? then db.jobs[j].code.value else k;
              && b.tokens == db.tokens[t := Token(code, Boot, db.now + ttl, None)]
              && b.jobs == db.jobs[j := db.jobs[j].(code := Some(code))]
              && b.codes == if db.jobs[j].code.Some? then db.codes
                            else db.codes[k := Code(m, p, None, db.now, 0, None, Some(db.now), None, true)]
    ensures MintNewJob(db, m, p, j, k, t, created, ttl).Some? ==>
              var b := MintNewJob(db, m, p, j, k, t, created, ttl).value;
              && j !in db.jobs && b.jobs == db.jobs[j := Job(m, p, Some(k), Pending, created, None, Menu)]
              && k !in db.codes && b.codes == db.codes[k := Code(m, p, None, db.now, 0, None, Some(db.now), None, true)]
              && b.tokens == db.tokens[t := Token(k, Boot, db.now + ttl, None)]
  {
  }

  /** An active job for the same machine and profile. */
  predicate Rivals(other: Job, job: Job) { other.machine == job.machine && other.profile == job.profile && !Terminal(other.state) }

  /** The menu attaches a token to a job exactly when no later one for the same machine and profile is active. */
  lemma MenuPicksNewest(w: World, j: JobId, k: CodeKey, t: TokenHash, ttl: nat)
    requires j in w.db.jobs && MintOnJob(w.db, j, k, t, ttl).Some?
    ensures var job := w.db.jobs[j];
            Step(w, MenuOnActive(j, k, t, ttl)) != w <==>
            && !Terminal(job.state)
            && forall i :: i in w.db.jobs && Rivals(w.db.jobs[i], job) ==> w.db.jobs[i].createdAt <= job.createdAt
  {
    hide Terminal;
    MintChanges(w.db, j, k, t, ttl);
    hide MintOnJob;
    var job := w.db.jobs[j];
    assert forall i :: i in w.db.jobs && Rivals(w.db.jobs[i], job) <==> Active(w.db, i, job.machine, job.profile);
  }

  lemma MintChanges(db: Db, j: JobId, k: CodeKey, t: TokenHash, ttl: nat)
    requires j in db.jobs && MintOnJob(db, j, k, t, ttl).Some?
    ensures MintOnJob(db, j, k, t, ttl).value != db
  {
    assert t !in db.minted && t in MintOnJob(db, j, k, t, ttl).value.minted;
  }

  lemma NonTerminal(s: State)
    ensures !Terminal(s) <==> s in {Pending, Bootstrapped, Imaging, PostInstall}
  {
    match s case Pending => case Bootstrapped => case Imaging => case PostInstall => case _ =>
  }

  // --- attempts and housekeeping ---------------------------------------------------------

  function Attempts(db: Db, k: CodeKey, cap: nat, n: nat): Db {
    if n == 0 then db else IncrementAttempt(Attempts(db, k, cap, n - 1), k, cap)
  }

  /** Wrong-address attempts lock an open code with the attempt that reaches the cap, and change nothing else. */
  lemma {:induction false} LocksAtCap(db: Db, k: CodeKey, cap: nat, n: nat)
    requires k in db.codes && db.codes[k].lockedAt.None? && n > 0
    ensures var c := db.codes[k];
            var v := Attempts(db, k, cap, n);
            && k in v.codes
            && v == db.(codes := db.codes[k := c.(attempts := c.attempts + n, lockedAt := v.codes[k].lockedAt)])
            && v.codes[k].lockedAt == if c.attempts + n >= cap then Some(db.now) else None
  {
    if n > 1 {
      LocksAtCap(db, k, cap, n - 1);
    }
  }

  /** The expiry locker takes no code that could still be redeemed, and leaves open only those that can. */
  lemma LockerSparesRedeemable(db: Db, k: CodeKey, from: Addr)
    ensures Redeemable(LockExpired(db), k, from) <==> Redeemable(db, k, from)
    ensures k in LockExpired(db).codes && LockExpired(db).codes[k].redeemedAt.None? && LockExpired(db).codes[k].lockedAt.None?
            <==> Consumable(db, k)
  {
  }

  /** It stamps the codes that have just passed their expiry unused, and rewrites nothing that was locked or redeemed before. */
  lemma LockerIsExact(db: Db, k: CodeKey)
    requires k in db.codes
    ensures var c := db.codes[k];
            && LockExpired(db).codes.Keys == db.codes.Keys
            && LockExpired(db).codes[k].(lockedAt := c.lockedAt) == c
            && (c.redeemedAt.Some? || c.lockedAt.Some? || db.now < c.expiresAt ==> LockExpired(db).codes[k] == c)
            && (LockExpired(db).codes[k] != c ==> LockExpired(db).codes[k].lockedAt == Some(db.now))
            && (LockExpired(db).codes[k] == c && c.redeemedAt.None? && c.lockedAt.None? ==> Consumable(db, k))
  {
  }

  /** The token reaper takes no token that a check would accept, and what it leaves is checked as before. */
  lemma ReaperSparesLive(db: Db, older: nat, t: TokenHash, j: JobId)
    ensures AcceptsInstall(ReapTokens(db, older), t, j) <==> AcceptsInstall(db, t, j)
    ensures AcceptsPhoneHome(ReapTokens(db, older), t, j) <==> AcceptsPhoneHome(db, t, j)
  {
  }

  /** It takes exactly the tokens spent or expired for more than the grace period. */
  lemma ReaperIsExact(db: Db, older: nat, t: TokenHash)
    requires t in db.tokens
    ensures var k := db.tokens[t];
            t in ReapTokens(db, older).tokens <==>
            k.expiresAt + older >= db.now && (k.consumedAt.None? || k.consumedAt.value + older >= db.now)
    ensures t in ReapTokens(db, older).tokens ==> ReapTokens(db, older).tokens[t] == db.tokens[t]
    ensures ReapTokens(db, older).tokens.Keys <= db.tokens.Keys
  {
  }

  /**
   The two checks differ only in the states they allow: phone-home allows
   every state that is not terminal, the installer's only bootstrapped and
   imaging. Both ask for an unspent token of the job's own code, for booting
   or phoning home, and stop accepting it at the instant it expires.
   */
  lemma TokenChecks(db: Db, t: TokenHash, j: JobId, d: nat)
    ensures AcceptsPhoneHome(db, t, j) <==>
            exists k: Token :: t in db.tokens && db.tokens[t] == k && !k.purpose.Other? && k.consumedAt.None? && db.now < k.expiresAt
                               && j in db.jobs && db.jobs[j].code == Some(k.code) && !Terminal(db.jobs[j].state)
    ensures AcceptsInstall(db, t, j) <==> AcceptsPhoneHome(db, t, j) && db.jobs[j].state in {Bootstrapped, Imaging}
    ensures AcceptsPhoneHome(db, t, j) ==>
              (AcceptsPhoneHome(db.(now := db.now + d), t, j) <==> db.now + d < db.tokens[t].expiresAt)
  {
    if j in db.jobs {
      NonTerminal(db.jobs[j].state);
    }
  }
}
