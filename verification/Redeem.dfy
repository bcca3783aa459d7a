/**
 Redeem handlers, menu mints, phone-home and cancel transitions, the expiry
 locker and the token reaper, all interleaved over the shared rows. A
 handler is a program counter between two database statements; every
 statement may succeed, fail, or take effect while its reply is lost.
 */
module Redeem {
  import opened Basics
  import opened Net
  import opened Tables

  type HandlerId = nat

  datatype Pc =
    | Arrived                 // request decoded, code hashed
    | WrongAddress            // outside the binding: the attempt is still to be counted
    | Cleared                 // every pre-check passed
    | KeyMinted               // the overlay key exists
    | CodeConsumed
    | JobCreated(job: JobId)
    | Done(status: nat)

  datatype Handler = Handler(key: CodeKey, from: Addr, pc: Pc)

  /** One successful ConsumeCode: by whom, when, from where, and the row it found. */
  datatype Consumption = Consumption(handler: HandlerId, key: CodeKey, at: Time, from: Addr, before: Code)

  datatype Issued = Issued(token: TokenHash, key: CodeKey)

  /** The tables, the handlers, and two histories: consumptions and boot tokens stored by the broker. */
  datatype World = World(db: Db, handlers: map<HandlerId, Handler>, consumptions: seq<Consumption>, issued: seq<Issued>)

  datatype Outcome = Ok | Error | LostReply

  datatype Event =
    | Tick(d: nat)
    | IssueCode(k: CodeKey, machine: Machine, profile: Profile, binding: Option<Prefix>, codeTtl: nat)
    | Arrive(h: HandlerId, key: CodeKey, from: Addr)
    | Lookup(h: HandlerId, ok: bool)
    | CountAttempt(h: HandlerId, cap: nat, out: Outcome)
    | MintKey(h: HandlerId, ok: bool)
    | Consume(h: HandlerId, out: Outcome)
    | CreateJob(h: HandlerId, j: JobId, created: nat, out: Outcome)
    | CreateToken(h: HandlerId, t: TokenHash, ttl: nat, out: Outcome)
    | Abandon(h: HandlerId)
    | LockExpiredCodes
    | MenuOnActive(j: JobId, k: CodeKey, t: TokenHash, ttl: nat)
    | MenuOnNew(machine: Machine, profile: Profile, j: JobId, k: CodeKey, t: TokenHash, created: nat, ttl: nat)
    | Move(j: JobId, to: State)
    | Revoke(j: JobId)
    | Reap(older: nat)

  ghost predicate Init(w: World) {
    && w.db.codes == map[] && w.db.tokens == map[] && w.db.minted == {}
    && w.handlers == map[] && w.consumptions == [] && w.issued == []
    && (forall j :: j in w.db.jobs ==> w.db.jobs[j].code.None? && w.db.jobs[j].origin == Legacy
                                       && (w.db.jobs[j].finishedAt.Some? <==> Terminal(w.db.jobs[j].state)))
  }

  function SetPc(w: World, h: HandlerId, pc: Pc): World
    requires h in w.handlers
  {
    w.(handlers := w.handlers[h := w.handlers[h].(pc := pc)])
  }

  /** The pre-checks of handleRedeem on the row it read, in source order. */
  function Gate(db: Db, key: CodeKey, from: Addr): Pc {
    if key !in db.codes then Done(401)
    else
      var c := db.codes[key];
      if c.lockedAt.Some? then Done(410)
      else if c.redeemedAt.Some? then Done(410)
      else if db.now > c.expiresAt then Done(410)
      else if c.binding.Some? && !Contains(c.binding.value, from) then WrongAddress
      else Cleared
  }

  predicate At(w: World, h: HandlerId, pc: Pc) { h in w.handlers && w.handlers[h].pc == pc }

  function StepConsume(w: World, h: HandlerId, out: Outcome): World {
    if !At(w, h, KeyMinted) then w
    else
      var x := w.handlers[h];
      var r := ConsumeCode(w.db, x.key, x.from);
      if out.Error? || r.None? then SetPc(w, h, Done(410))
      else
        var entry := Consumption(h, x.key, w.db.now, x.from, w.db.codes[x.key]);
        SetPc(w.(db := r.value, consumptions := w.consumptions + [entry]), h, if out.Ok? then CodeConsumed else Done(410))
  }

  function StepCreateJob(w: World, h: HandlerId, j: JobId, created: nat, out: Outcome): World {
    if !At(w, h, CodeConsumed) then w
    else
      var r := InsertJob(w.db, j, w.handlers[h].key, created);
      if out.Error? || r.None? then SetPc(w, h, Done(500))
      else SetPc(w.(db := r.value), h, if out.Ok? then JobCreated(j) else Done(500))
  }

  function StepCreateToken(w: World, h: HandlerId, t: TokenHash, ttl: nat, out: Outcome): World {
    if h !in w.handlers || !w.handlers[h].pc.JobCreated? then w
    else
      var key := w.handlers[h].key;
      var r := InsertToken(w.db, t, Token(key, Boot, w.db.now + ttl, None));
      if out.Error? || r.None? then SetPc(w, h, Done(500))
      else SetPc(w.(db := r.value, issued := w.issued + [Issued(t, key)]), h, if out.Ok? then Done(200) else Done(500))
  }

  function WithDb(w: World, r: Option<Db>): World { if r.Some? then w.(db := r.value) else w }

  /** One step; an event whose handler is elsewhere, or whose statement fails, changes nothing. */
  ghost function Step(w: World, e: Event): World {
    match e
    case Tick(d) => w.(db := w.db.(now := w.db.now + d))
    case IssueCode(k, m, p, b, ttl) =>
      WithDb(w, InsertCode(w.db, k, Code(m, p, b, w.db.now + ttl, 0, None, None, None, false)))
    case Arrive(h, key, from) => if h in w.handlers then w else w.(handlers := w.handlers[h := Handler(key, from, Arrived)])
    case Lookup(h, ok) =>
      if !At(w, h, Arrived) then w
      else SetPc(w, h, if ok then Gate(w.db, w.handlers[h].key, w.handlers[h].from) else Done(500))
    case CountAttempt(h, cap, out) =>
      if !At(w, h, WrongAddress) then w
      else SetPc(if out.Error? then w else w.(db := IncrementAttempt(w.db, w.handlers[h].key, cap)), h, Done(401))
    case MintKey(h, ok) => if !At(w, h, Cleared) then w else SetPc(w, h, if ok then KeyMinted else Done(502))
    case Consume(h, out) => StepConsume(w, h, out)
    case CreateJob(h, j, created, out) => StepCreateJob(w, h, j, created, out)
    case CreateToken(h, t, ttl, out) => StepCreateToken(w, h, t, ttl, out)
    case Abandon(h) => if h !in w.handlers then w else SetPc(w, h, Done(0))
    case LockExpiredCodes => w.(db := LockExpired(w.db))
    case MenuOnActive(j, k, t, ttl) =>
      if j in w.db.jobs && Newest(w.db, j, w.db.jobs[j].machine, w.db.jobs[j].profile)
      then WithDb(w, MintOnJob(w.db, j, k, t, ttl)) else w
    case MenuOnNew(m, p, j, k, t, created, ttl) => WithDb(w, MintNewJob(w.db, m, p, j, k, t, created, ttl))
    case Move(j, to) => WithDb(w, Transition(w.db, j, to))
    case Revoke(j) => if j in w.db.jobs && Terminal(w.db.jobs[j].state) then w.(db := RevokeBootTokens(w.db, j)) else w
    case Reap(older) => w.(db := ReapTokens(w.db, older))
  }

  ghost function Run(w: World, es: seq<Event>): World {
    if es == [] then w else Step(Run(w, es[..|es| - 1]), es[|es| - 1])
  }

  // --- the invariant --------------------------------------------------------------

  ghost predicate Redeemed(db: Db, k: CodeKey) { k in db.codes && db.codes[k].redeemedAt.Some? }

  ghost predicate NoJob(db: Db, k: CodeKey) { forall j :: j in db.jobs ==> db.jobs[j].code != Some(k) }

  ghost predicate JobsOk(db: Db) {
    && (forall j :: j in db.jobs && db.jobs[j].code.Some? ==> Redeemed(db, db.jobs[j].code.value))
    && (forall i, j :: i in db.jobs && j in db.jobs && db.jobs[i].code.Some? && db.jobs[i].code == db.jobs[j].code ==> i == j)
    && (forall j :: j in db.jobs ==> (db.jobs[j].finishedAt.Some? <==> Terminal(db.jobs[j].state)))
  }

  ghost predicate CodesOk(db: Db) { forall k :: k in db.codes && db.codes[k].menu ==> db.codes[k].redeemedAt.Some? }

  ghost predicate TokensOk(db: Db) { forall t :: t in db.tokens ==> t in db.minted }

  predicate Admits(c: Code, from: Addr) { c.binding.Some? ==> Contains(c.binding.value, from) }

  /** What a consumption must have found. */
  predicate Proper(c: Consumption) {
    && c.before.redeemedAt.None? && c.before.lockedAt.None? && c.before.expiresAt > c.at
    && Admits(c.before, c.from) && !c.before.menu
  }

  ghost predicate ConsumptionsOk(w: World) {
    && (forall i :: 0 <= i < |w.consumptions| ==> Proper(w.consumptions[i]) && Redeemed(w.db, w.consumptions[i].key)
                                                  && !w.db.codes[w.consumptions[i].key].menu)
    && (forall i, j :: 0 <= i < j < |w.consumptions| ==> w.consumptions[i].key != w.consumptions[j].key)
  }

  ghost predicate IssuedOk(w: World) {
    && (forall i :: 0 <= i < |w.issued| ==> Redeemed(w.db, w.issued[i].key))
    && (forall i, j :: 0 <= i < j < |w.issued| ==> w.issued[i].key != w.issued[j].key)
  }

  ghost predicate NoIssue(w: World, k: CodeKey) { forall i :: 0 <= i < |w.issued| ==> w.issued[i].key != k }

  ghost predicate HolderAt(w: World, h: HandlerId, k: CodeKey, i: nat) {
    i < |w.consumptions| && w.consumptions[i].handler == h && w.consumptions[i].key == k
  }

  ghost predicate Holds(w: World, h: HandlerId, k: CodeKey) { exists i: nat :: HolderAt(w, h, k, i) }

  ghost predicate HandlerOk(w: World, h: HandlerId)
    requires h in w.handlers
  {
    var x := w.handlers[h];
    match x.pc
    case Cleared => x.key in w.db.codes && Admits(w.db.codes[x.key], x.from)
    case KeyMinted => x.key in w.db.codes && Admits(w.db.codes[x.key], x.from)
    case CodeConsumed => Holds(w, h, x.key) && NoJob(w.db, x.key) && NoIssue(w, x.key)
    case JobCreated(j) => Holds(w, h, x.key) && NoIssue(w, x.key) && j in w.db.jobs && w.db.jobs[j].code == Some(x.key)
    case _ => true
  }

  ghost predicate Inv(w: World) {
    && JobsOk(w.db) && CodesOk(w.db) && TokensOk(w.db)
    && ConsumptionsOk(w) && IssuedOk(w)
    && (forall h :: h in w.handlers ==> HandlerOk(w, h))
  }

  /** A code is held by the one handler whose consumption is in the history. */
  lemma OneHolder(w: World, g: HandlerId, h: HandlerId, k: CodeKey)
    requires Inv(w) && Holds(w, g, k) && Holds(w, h, k)
    ensures g == h
  {
    var i: nat :| HolderAt(w, g, k, i);
    var j: nat :| HolderAt(w, h, k, j);
    assert i == j;
  }

  // --- every step keeps it ------------------------------------------------------------

  /** Rows stay: no code loses its binding or its redemption, no job loses its code. */
  ghost predicate RowsStay(a: Db, b: Db) {
    && (forall k :: k in a.codes ==> k in b.codes && b.codes[k].binding == a.codes[k].binding && b.codes[k].menu == a.codes[k].menu)
    && (forall k :: Redeemed(a, k) ==> Redeemed(b, k))
    && (forall j :: j in a.jobs ==> j in b.jobs && (a.jobs[j].code.Some? ==> b.jobs[j].code == a.jobs[j].code))
  }

  /** A handler that does not move keeps its claim while rows stay and nobody else uses its code. */
  lemma Carry(w: World, v: World, h: HandlerId)
    requires h in w.handlers && h in v.handlers && v.handlers[h] == w.handlers[h] && HandlerOk(w, h)
    requires w.consumptions <= v.consumptions && RowsStay(w.db, v.db)
    requires w.handlers[h].pc.CodeConsumed? ==> NoJob(v.db, w.handlers[h].key)
    requires w.handlers[h].pc.CodeConsumed? || w.handlers[h].pc.JobCreated? ==> NoIssue(v, w.handlers[h].key)
    ensures HandlerOk(v, h)
  {
    var x := w.handlers[h];
    if x.pc.CodeConsumed? || x.pc.JobCreated? {
      var i: nat :| HolderAt(w, h, x.key, i);
      assert HolderAt(v, h, x.key, i);
    }
  }

  ghost predicate DbOk(db: Db) { JobsOk(db) && CodesOk(db) && TokensOk(db) }

  /** A change of the tables that no handler notices: a job is given only a code that is new. */
  ghost predicate Quiet(a: Db, b: Db) {
    && RowsStay(a, b)
    && (forall j :: j in b.jobs && b.jobs[j].code.Some? ==>
          (j in a.jobs && a.jobs[j].code == b.jobs[j].code) || b.jobs[j].code.value !in a.codes)
  }

  lemma QuietKeepsInv(w: World, db: Db)
    requires Inv(w) && Quiet(w.db, db) && DbOk(db)
    ensures Inv(w.(db := db))
  {
    var v := w.(db := db);
    forall h | h in v.handlers
      ensures HandlerOk(v, h)
    {
      assert HandlerOk(w, h);
      var x := w.handlers[h];
      if x.pc.CodeConsumed? {
        var i: nat :| HolderAt(w, h, x.key, i);
        assert Redeemed(w.db, w.consumptions[i].key);
      }
      Carry(w, v, h);
    }
  }

  lemma IncrementAttemptQuiet(db: Db, k: CodeKey, cap: nat)
    requires DbOk(db)
    ensures var b := IncrementAttempt(db, k, cap); Quiet(db, b) && DbOk(b)
  {
  }

  lemma LockExpiredQuiet(db: Db)
    requires DbOk(db)
    ensures var b := LockExpired(db); Quiet(db, b) && DbOk(b)
  {
  }

  lemma TransitionQuiet(db: Db, j: JobId, to: State)
    requires DbOk(db) && Transition(db, j, to).Some?
    ensures var b := Transition(db, j, to).value; Quiet(db, b) && DbOk(b)
  {
  }

  lemma TokensQuiet(db: Db, older: nat, j: JobId)
    requires DbOk(db)
    ensures var b := ReapTokens(db, older); Quiet(db, b) && DbOk(b)
    ensures var b := RevokeBootTokens(db, j); Quiet(db, b) && DbOk(b)
  {
  }

  lemma MintOnJobQuiet(db: Db, j: JobId, k: CodeKey, t: TokenHash, ttl: nat)
    requires DbOk(db) && j in db.jobs && MintOnJob(db, j, k, t, ttl).Some?
    ensures var b := MintOnJob(db, j, k, t, ttl).value; Quiet(db, b) && DbOk(b)
  {
    hide JobsOk, Quiet;
    MintOnJobRows(db, j, k, t, ttl);
    MintOnJobJobs(db, j, k, t, ttl);
  }

  lemma MintOnJobRows(db: Db, j: JobId, k: CodeKey, t: TokenHash, ttl: nat)
    requires j in db.jobs && MintOnJob(db, j, k, t, ttl).Some?
    ensures Quiet(db, MintOnJob(db, j, k, t, ttl).value)
  {
  }

  lemma MintOnJobJobs(db: Db, j: JobId, k: CodeKey, t: TokenHash, ttl: nat)
    requires JobsOk(db) && j in db.jobs && MintOnJob(db, j, k, t, ttl).Some?
    ensures JobsOk(MintOnJob(db, j, k, t, ttl).value)
  {
  }

  lemma MintNewJobQuiet(db: Db, m: Machine, p: Profile, j: JobId, k: CodeKey, t: TokenHash, created: nat, ttl: nat)
    requires DbOk(db) && MintNewJob(db, m, p, j, k, t, created, ttl).Some?
    ensures var b := MintNewJob(db, m, p, j, k, t, created, ttl).value; Quiet(db, b) && DbOk(b)
  {
  }

  /** Moving one handler keeps every other handler's claim. */
  lemma MoveKeepsInv(w: World, h: HandlerId, pc: Pc)
    requires Inv(w) && h in w.handlers
    requires HandlerOk(SetPc(w, h, pc), h)
    ensures Inv(SetPc(w, h, pc))
  {
    var v := SetPc(w, h, pc);
    forall g | g in v.handlers
      ensures HandlerOk(v, g)
    {
      if g != h {
        assert HandlerOk(w, g);
        Carry(w, v, g);
      }
    }
  }

  lemma ConsumeRows(db: Db, k: CodeKey, from: Addr)
    requires DbOk(db) && Consumable(db, k)
    ensures ConsumeCode(db, k, from).Some?
    ensures var b := ConsumeCode(db, k, from).value;
            DbOk(b) && RowsStay(db, b) && Redeemed(b, k) && b.jobs == db.jobs && !b.codes[k].menu
  {
  }

  lemma HistoriesCarry(w: World, v: World)
    requires ConsumptionsOk(w) && IssuedOk(w) && RowsStay(w.db, v.db)
    ensures v.consumptions == w.consumptions ==> ConsumptionsOk(v)
    ensures v.issued == w.issued ==> IssuedOk(v)
  {
  }

  lemma ConsumptionRecorded(w: World, v: World, entry: Consumption)
    requires ConsumptionsOk(w) && RowsStay(w.db, v.db) && v.consumptions == w.consumptions + [entry]
    requires Proper(entry) && !Redeemed(w.db, entry.key) && Redeemed(v.db, entry.key) && !v.db.codes[entry.key].menu
    ensures ConsumptionsOk(v)
  {
    hide Proper;
  }

  lemma ConsumeKeepsInv(w: World, h: HandlerId, out: Outcome)
    requires Inv(w)
    ensures Inv(StepConsume(w, h, out))
  {
    hide JobsOk, TokensOk, ConsumptionsOk, IssuedOk, RowsStay, NoJob;
    if At(w, h, KeyMinted) {
      var x := w.handlers[h];
      assert HandlerOk(w, h);
      if out.Error? || !Consumable(w.db, x.key) {
        MoveKeepsInv(w, h, Done(410));
      } else {
        var v := StepConsume(w, h, out);
        ConsumeRows(w.db, x.key, x.from);
        HistoriesCarry(w, v);
        ConsumptionRecorded(w, v, Consumption(h, x.key, w.db.now, x.from, w.db.codes[x.key]));
        ConsumerIsNew(w, v, h);
        forall g | g in v.handlers && g != h
          ensures HandlerOk(v, g)
        {
          assert HandlerOk(w, g);
          CarrySameJobs(w, v, g);
        }
      }
    }
  }

  lemma CarrySameJobs(w: World, v: World, g: HandlerId)
    requires g in w.handlers && g in v.handlers && v.handlers[g] == w.handlers[g] && HandlerOk(w, g)
    requires w.consumptions <= v.consumptions && RowsStay(w.db, v.db) && v.db.jobs == w.db.jobs && v.issued == w.issued
    ensures HandlerOk(v, g)
  {
    hide RowsStay;
    Carry(w, v, g);
  }

  /** The handler that consumes holds the code, and no job or token exists for it yet. */
  lemma ConsumerIsNew(w: World, v: World, h: HandlerId)
    requires Inv(w) && h in w.handlers && h in v.handlers && v.handlers[h].key == w.handlers[h].key
    requires v.handlers[h].pc.CodeConsumed? || v.handlers[h].pc.Done?
    requires !Redeemed(w.db, w.handlers[h].key) && v.db.jobs == w.db.jobs && v.issued == w.issued
    requires |v.consumptions| > 0 && HolderAt(v, h, w.handlers[h].key, |v.consumptions| - 1)
    ensures HandlerOk(v, h)
  {
    var k := w.handlers[h].key;
    assert NoJob(w.db, k) && NoIssue(w, k);
  }

  /** The holder of a code acts on it: no other handler has a claim on that code. */
  lemma OthersCarry(w: World, v: World, h: HandlerId)
    requires Inv(w) && h in w.handlers && Holds(w, h, w.handlers[h].key)
    requires v.handlers.Keys == w.handlers.Keys && forall g :: g in w.handlers && g != h ==> v.handlers[g] == w.handlers[g]
    requires w.consumptions == v.consumptions && RowsStay(w.db, v.db)
    requires forall k :: k != w.handlers[h].key ==> (NoJob(w.db, k) ==> NoJob(v.db, k)) && (NoIssue(w, k) ==> NoIssue(v, k))
    ensures forall g :: g in v.handlers && g != h ==> HandlerOk(v, g)
  {
    forall g | g in v.handlers && g != h
      ensures HandlerOk(v, g)
    {
      assert HandlerOk(w, g);
      if w.handlers[g].key == w.handlers[h].key && Holds(w, g, w.handlers[g].key) {
        OneHolder(w, g, h, w.handlers[h].key);
      }
      Carry(w, v, g);
    }
  }

  lemma InsertJobRows(db: Db, j: JobId, k: CodeKey, created: nat)
    requires DbOk(db) && InsertJob(db, j, k, created).Some? && Redeemed(db, k) && NoJob(db, k)
    ensures var b := InsertJob(db, j, k, created).value;
            && DbOk(b) && RowsStay(db, b) && j in b.jobs && b.jobs[j].code == Some(k)
            && forall x :: x != k && NoJob(db, x) ==> NoJob(b, x)
  {
  }

  lemma JobStored(w: World, h: HandlerId, j: JobId, created: nat, out: Outcome)
    requires Inv(w) && At(w, h, CodeConsumed) && !out.Error? && InsertJob(w.db, j, w.handlers[h].key, created).Some?
    ensures Inv(StepCreateJob(w, h, j, created, out))
  {
    hide JobsOk, CodesOk, TokensOk, IssuedOk, RowsStay, NoJob, Proper, InsertJob;
    var k := w.handlers[h].key;
    var v := StepCreateJob(w, h, j, created, out);
    assert HandlerOk(w, h);
    var n: nat :| HolderAt(w, h, k, n);
    assert Redeemed(w.db, w.consumptions[n].key);
    InsertJobRows(w.db, j, k, created);
    HistoriesCarry(w, v);
    assert HolderAt(v, h, k, n);
    OthersCarry(w, v, h);
  }

  lemma CreateJobKeepsInv(w: World, h: HandlerId, j: JobId, created: nat, out: Outcome)
    requires Inv(w)
    ensures Inv(StepCreateJob(w, h, j, created, out))
  {
    hide Inv;
    if At(w, h, CodeConsumed) {
      if out.Error? || InsertJob(w.db, j, w.handlers[h].key, created).None? {
        DoneIsOk(w, h, 500);
        MoveKeepsInv(w, h, Done(500));
      } else {
        JobStored(w, h, j, created, out);
      }
    }
  }

  lemma DoneIsOk(w: World, h: HandlerId, status: nat)
    requires h in w.handlers
    ensures HandlerOk(SetPc(w, h, Done(status)), h)
  {
  }

  lemma CreateTokenKeepsInv(w: World, h: HandlerId, t: TokenHash, ttl: nat, out: Outcome)
    requires Inv(w)
    ensures Inv(StepCreateToken(w, h, t, ttl, out))
  {
    if h in w.handlers && w.handlers[h].pc.JobCreated? {
      var k := w.handlers[h].key;
      assert HandlerOk(w, h);
      if out.Error? || InsertToken(w.db, t, Token(k, Boot, w.db.now + ttl, None)).None? {
        MoveKeepsInv(w, h, Done(500));
      } else {
        TokenStored(w, h, t, ttl, out);
      }
    }
  }

  lemma InsertTokenRows(db: Db, t: TokenHash, token: Token)
    requires DbOk(db) && InsertToken(db, t, token).Some?
    ensures var b := InsertToken(db, t, token).value; DbOk(b) && RowsStay(db, b) && b.jobs == db.jobs && b.codes == db.codes
  {
  }

  lemma TokenIssued(w: World, v: World, entry: Issued)
    requires IssuedOk(w) && NoIssue(w, entry.key) && v.issued == w.issued + [entry]
    requires v.db.codes == w.db.codes && Redeemed(w.db, entry.key)
    ensures IssuedOk(v)
    ensures forall k :: k != entry.key && NoIssue(w, k) ==> NoIssue(v, k)
  {
  }

  lemma TokenStored(w: World, h: HandlerId, t: TokenHash, ttl: nat, out: Outcome)
    requires Inv(w) && h in w.handlers && w.handlers[h].pc.JobCreated? && !out.Error?
    requires InsertToken(w.db, t, Token(w.handlers[h].key, Boot, w.db.now + ttl, None)).Some?
    ensures Inv(StepCreateToken(w, h, t, ttl, out))
  {
    hide JobsOk, CodesOk, TokensOk, IssuedOk, RowsStay, NoJob, NoIssue, Proper, InsertToken;
    var k := w.handlers[h].key;
    var v := StepCreateToken(w, h, t, ttl, out);
    assert HandlerOk(w, h);
    var n: nat :| HolderAt(w, h, k, n);
    assert Redeemed(w.db, w.consumptions[n].key);
    InsertTokenRows(w.db, t, Token(k, Boot, w.db.now + ttl, None));
    HistoriesCarry(w, v);
    TokenIssued(w, v, Issued(t, k));
    SameJobsNoJob(w.db, v.db);
    OthersCarry(w, v, h);
  }

  lemma SameJobsNoJob(a: Db, b: Db)
    requires a.jobs == b.jobs
    ensures forall k :: NoJob(a, k) ==> NoJob(b, k)
  {
  }

  lemma ArriveKeepsInv(w: World, h: HandlerId, key: CodeKey, from: Addr)
    requires Inv(w) && h !in w.handlers
    ensures Inv(w.(handlers := w.handlers[h := Handler(key, from, Arrived)]))
  {
    var v := w.(handlers := w.handlers[h := Handler(key, from, Arrived)]);
    forall g | g in v.handlers
      ensures HandlerOk(v, g)
    {
      if g != h {
        assert HandlerOk(w, g);
        Carry(w, v, g);
      }
    }
  }

  lemma CountAttemptKeepsInv(w: World, h: HandlerId, cap: nat, out: Outcome)
    requires Inv(w) && At(w, h, WrongAddress)
    ensures Inv(Step(w, CountAttempt(h, cap, out)))
  {
    var db := if out.Error? then w.db else IncrementAttempt(w.db, w.handlers[h].key, cap);
    IncrementAttemptQuiet(w.db, w.handlers[h].key, cap);
    QuietKeepsInv(w, db);
    MoveKeepsInv(w.(db := db), h, Done(401));
  }

  ghost predicate HandlerEvent(e: Event) {
    e.Arrive? || e.Lookup? || e.CountAttempt? || e.MintKey? || e.Consume? || e.CreateJob? || e.CreateToken? || e.Abandon?
  }

  lemma HandlerStepKeepsInv(w: World, e: Event)
    requires Inv(w) && HandlerEvent(e)
    ensures Inv(Step(w, e))
  {
    hide Holds, NoJob, NoIssue, JobsOk, CodesOk, TokensOk, ConsumptionsOk, IssuedOk;
    match e
    case Arrive(h, key, from) => if h !in w.handlers { ArriveKeepsInv(w, h, key, from); }
    case Lookup(h, ok) => if At(w, h, Arrived) { MoveKeepsInv(w, h, Step(w, e).handlers[h].pc); }
    case CountAttempt(h, cap, out) => if At(w, h, WrongAddress) { CountAttemptKeepsInv(w, h, cap, out); }
    case MintKey(h, ok) =>
      if At(w, h, Cleared) {
        assert HandlerOk(w, h);
        MoveKeepsInv(w, h, if ok then KeyMinted else Done(502));
      }
    case Consume(h, out) => ConsumeKeepsInv(w, h, out);
    case CreateJob(h, j, created, out) => CreateJobKeepsInv(w, h, j, created, out);
    case CreateToken(h, t, ttl, out) => CreateTokenKeepsInv(w, h, t, ttl, out);
    case Abandon(h) => if h in w.handlers { MoveKeepsInv(w, h, Done(0)); }
  }

  lemma TableStepKeepsInv(w: World, e: Event)
    requires Inv(w) && !HandlerEvent(e)
    ensures Inv(Step(w, e))
  {
    var db := TableStepQuiet(w, e);
    QuietKeepsInv(w, db);
  }

  /** A step of no handler changes the tables only, quietly. */
  lemma TableStepQuiet(w: World, e: Event) returns (db: Db)
    requires DbOk(w.db) && !HandlerEvent(e)
    ensures Step(w, e) == w.(db := db) && Quiet(w.db, db) && DbOk(db)
  {
    hide RowsStay, Quiet, DbOk, LockExpired, ReapTokens, RevokeBootTokens, MintOnJob, MintNewJob, Transition, InsertCode;
    db := Step(w, e).db;
    if db == w.db {
      Unchanged(db);
    } else {
      match e
      case Tick(d) => TickQuiet(w.db, d);
      case IssueCode(k, m, p, b, ttl) =>
        FreshCode(w.db, k, Code(m, p, b, w.db.now + ttl, 0, None, None, None, false));
      case LockExpiredCodes => LockExpiredQuiet(w.db);
      case MenuOnActive(j, k, t, ttl) => MintOnJobQuiet(w.db, j, k, t, ttl);
      case MenuOnNew(m, p, j, k, t, created, ttl) => MintNewJobQuiet(w.db, m, p, j, k, t, created, ttl);
      case Move(j, to) => TransitionQuiet(w.db, j, to);
      case Revoke(j) => TokensQuiet(w.db, 0, j);
      case Reap(older) => TokensQuiet(w.db, older, 0);
    }
  }

  lemma Unchanged(db: Db)
    requires DbOk(db)
    ensures Quiet(db, db)
  {
  }

  lemma TickQuiet(db: Db, d: nat)
    requires DbOk(db)
    ensures var b := db.(now := db.now + d); Quiet(db, b) && DbOk(b)
  {
  }

  lemma FreshCode(db: Db, k: CodeKey, c: Code)
    requires DbOk(db) && !c.menu && InsertCode(db, k, c).Some?
    ensures var b := InsertCode(db, k, c).value; Quiet(db, b) && DbOk(b)
  {
  }

  /** Every step keeps the invariant. */
  lemma StepKeepsInv(w: World, e: Event)
    requires Inv(w)
    ensures Inv(Step(w, e))
  {
    if HandlerEvent(e) {
      HandlerStepKeepsInv(w, e);
    } else {
      TableStepKeepsInv(w, e);
    }
  }

  lemma {:induction false} RunKeepsInv(w: World, es: seq<Event>)
    requires Inv(w)
    ensures Inv(Run(w, es))
  {
    hide Inv, Step;
    if es != [] {
      RunKeepsInv(w, es[..|es| - 1]);
      StepKeepsInv(Run(w, es[..|es| - 1]), es[|es| - 1]);
    }
  }
}
