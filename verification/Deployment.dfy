/** Source addresses and the CIDR ranges a deployment code can be bound to (package net/netip). */
module Net {
  /** `NoAddr` is the zero address a handler falls back to when the peer address does not parse. */
  datatype Addr = NoAddr | V4(n: nat) | V6(n: nat, zoned: bool)

  datatype Prefix = Prefix4(base: nat, bits: nat) | Prefix6(base: nat, bits: nat)

  function Pow2(k: nat): (p: nat)
    ensures p > 0
  {
    if k == 0 then 1 else 2 * Pow2(k - 1)
  }

  function HostBits(p: Prefix): nat {
    var width := if p.Prefix4? then 32 else 128;
    if p.bits <= width then width - p.bits else 0
  }

  /** Prefix.Contains: families must agree, a zoned or missing address is never inside. */
  predicate Contains(p: Prefix, a: Addr) {
    match a
    case NoAddr => false
    case V4(n) => p.Prefix4? && n / Pow2(HostBits(p)) == p.base / Pow2(HostBits(p))
    case V6(n, zoned) => p.Prefix6? && !zoned && n / Pow2(HostBits(p)) == p.base / Pow2(HostBits(p))
  }

  /** The number of an address of the prefix's family, unless it is zoned. */
  predicate SameFamily(p: Prefix, a: Addr, n: nat) { (p.Prefix4? && a == V4(n)) || (p.Prefix6? && a == V6(n, false)) }

  /** A prefix holds the block of Pow2(HostBits) addresses that starts at its base with the host bits cleared. */
  lemma ContainsIsBlock(p: Prefix, a: Addr)
    ensures Contains(p, a) <==>
            exists n: nat :: SameFamily(p, a, n) && var size := Pow2(HostBits(p)); var first := p.base - p.base % size;
                        first <= n < first + size
  {
    hide Pow2, HostBits;
    var size := Pow2(HostBits(p));
    if a.V4? || a.V6? {
      SameBlock(a.n, p.base, size);
      assert SameFamily(p, a, a.n) || forall n: nat :: !SameFamily(p, a, n);
    }
  }

  lemma SameBlock(n: nat, base: nat, size: nat)
    requires size > 0
    ensures n / size == base / size <==> base - base % size <= n < base - base % size + size
  {
    var q := base / size;
    assert base - base % size == size * q;
    var r := n / size;
    assert n == size * r + n % size;
    if r < q {
      assert size * (r + 1) <= size * q;
    } else if r > q {
      assert size * (q + 1) <= size * r;
    }
  }

  /** A full-length prefix is one address, and one of length 0 the whole family. */
  lemma ExtremePrefixes(base: nat, n: nat)
    requires base < 0x1_0000_0000 && n < 0x1_0000_0000
    ensures Contains(Prefix4(base, 32), V4(n)) <==> n == base
    ensures Contains(Prefix4(base, 24), V4(n)) <==> n / 256 == base / 256
    ensures Contains(Prefix4(base, 0), V4(n))
    ensures Contains(Prefix6(base, 128), V6(n, false)) <==> n == base
  {
    assert Pow2(8) == 256;
    assert Pow2(16) == 0x1_0000;
    assert Pow2(24) == 0x100_0000;
    assert Pow2(32) == 0x1_0000_0000;
  }
}

/**
 The rows that the auth-broker and the api share: codes, jobs and one-shot
 tokens. Every function is one SQL statement (the menu mint is one
 transaction) and runs atomically. A code is keyed by its hash, which is
 unique, so the key also stands for the row id; a token likewise.
 */
module Tables {
  import opened Basics
  import opened Net

  type Time = int
  type CodeKey = nat
  type JobId = nat
  type TokenHash = nat
  type Machine = nat
  type Profile = nat

  datatype Code = Code(machine: Machine, profile: Profile, binding: Option<Prefix>, expiresAt: Time,
                       attempts: nat, lockedAt: Option<Time>, redeemedAt: Option<Time>, redeemedFrom: Option<Addr>,
                       menu: bool)

  datatype State = Pending | Bootstrapped | Imaging | PostInstall | Completed | Failed | Cancelled

  datatype Origin = Legacy | Broker | Menu

  datatype Job = Job(machine: Machine, profile: Profile, code: Option<CodeKey>, state: State,
                     createdAt: nat, finishedAt: Option<Time>, origin: Origin)

  datatype Purpose = Boot | PhoneHome | Other

  datatype Token = Token(code: CodeKey, purpose: Purpose, expiresAt: Time, consumedAt: Option<Time>)

  /** `minted` remembers every token hash ever inserted, so that a reaped one does not come back. */
  datatype Db = Db(now: Time, codes: map<CodeKey, Code>, jobs: map<JobId, Job>, tokens: map<TokenHash, Token>,
                   minted: set<TokenHash>)

  predicate Terminal(s: State) { s in {Completed, Failed, Cancelled} }

  /** The transition table of TransitionJob. */
  function Allowed(cur: State): set<State> {
    match cur
    case Pending => {Bootstrapped, Cancelled}
    case Bootstrapped => {Imaging, Failed, Cancelled}
    case Imaging => {PostInstall, Completed, Failed, Cancelled}
    case PostInstall => {Completed, Failed}
    case _ => {}
  }

  // --- auth-broker: auth_codes ------------------------------------------------

  /** The WHERE clause of ConsumeCode. */
  predicate Consumable(db: Db, k: CodeKey) {
    && k in db.codes
    && db.codes[k].redeemedAt.None?
    && db.codes[k].lockedAt.None?
    && db.codes[k].expiresAt > db.now
  }

  function ConsumeCode(db: Db, k: CodeKey, from: Addr): Option<Db> {
    if Consumable(db, k) then
      Some(db.(codes := db.codes[k := db.codes[k].(redeemedAt := Some(db.now), redeemedFrom := Some(from))]))
    else None
  }

  function IncrementAttempt(db: Db, k: CodeKey, cap: nat): Db {
    if k !in db.codes then db
    else
      var c := db.codes[k];
      var locked := if c.attempts + 1 >= cap then Some(db.now) else c.lockedAt;
      db.(codes := db.codes[k := c.(attempts := c.attempts + 1, lockedAt := locked)])
  }

  /** The worker's expiry locker. */
  function LockExpired(db: Db): Db {
    db.(codes := map k | k in db.codes ::
      var c := db.codes[k];
      if c.redeemedAt.None? && c.lockedAt.None? && c.expiresAt <= db.now then c.(lockedAt := Some(db.now)) else c)
  }

  /** code_hash is unique, so a second insert of the same hash fails. */
  function InsertCode(db: Db, k: CodeKey, c: Code): Option<Db> {
    if k in db.codes then None else Some(db.(codes := db.codes[k := c]))
  }

  // --- jobs and tokens ----------------------------------------------------------

  /** CreateDeploymentJob: INSERT ... SELECT FROM auth_codes WHERE id = k. */
  function InsertJob(db: Db, j: JobId, k: CodeKey, created: nat): Option<Db> {
    if j in db.jobs || k !in db.codes then None
    else
      var c := db.codes[k];
      Some(db.(jobs := db.jobs[j := Job(c.machine, c.profile, Some(k), Bootstrapped, created, None, Broker)]))
  }

  function InsertToken(db: Db, t: TokenHash, token: Token): Option<Db> {
    if t in db.minted || token.code !in db.codes then None
    else Some(db.(tokens := db.tokens[t := token], minted := db.minted + {t}))
  }

  /** TransitionJob up to and including its UPDATE; the read and the write are taken as one step. */
  function Transition(db: Db, j: JobId, to: State): Option<Db> {
    if j !in db.jobs || to !in Allowed(db.jobs[j].state) then None
    else
      var finished := if Terminal(to) then Some(db.now) else db.jobs[j].finishedAt;
      Some(db.(jobs := db.jobs[j := db.jobs[j].(state := to, finishedAt := finished)]))
  }

  /** MarkBootTokensConsumedForJob. */
  function RevokeBootTokens(db: Db, j: JobId): Db {
    if j !in db.jobs then db
    else db.(tokens := map t | t in db.tokens ::
           var k := db.tokens[t];
           if Some(k.code) == db.jobs[j].code && k.purpose == Boot && k.consumedAt.None?
           then k.(consumedAt := Some(db.now)) else k)
  }

  function ReapTokens(db: Db, older: nat): Db {
    db.(tokens := map t | t in db.tokens && !Stale(db, db.tokens[t], older) :: db.tokens[t])
  }

  predicate Stale(db: Db, t: Token, older: nat) {
    (t.consumedAt.Some? && t.consumedAt.value < db.now - older) || t.expiresAt < db.now - older
  }

  predicate Live(db: Db, t: TokenHash) {
    t in db.tokens && db.tokens[t].consumedAt.None? && db.tokens[t].expiresAt > db.now
  }

  predicate Bound(db: Db, t: TokenHash, j: JobId) {
    && t in db.tokens && db.tokens[t].purpose in {Boot, PhoneHome}
    && j in db.jobs && db.jobs[j].code == Some(db.tokens[t].code)
  }

  /** VerifyOneShotTokenForJob: the check of the WinPE endpoints. */
  predicate AcceptsInstall(db: Db, t: TokenHash, j: JobId) {
    Bound(db, t, j) && Live(db, t) && db.jobs[j].state in {Bootstrapped, Imaging}
  }

  /** VerifyPhoneHomeToken. */
  predicate AcceptsPhoneHome(db: Db, t: TokenHash, j: JobId) {
    Bound(db, t, j) && Live(db, t) && db.jobs[j].state in {Pending, Bootstrapped, Imaging, PostInstall}
  }

  // --- the PXE menu mint ----------------------------------------------------------

  predicate Active(db: Db, j: JobId, m: Machine, p: Profile) {
    j in db.jobs && db.jobs[j].machine == m && db.jobs[j].profile == p && !Terminal(db.jobs[j].state)
  }

  /** ORDER BY created_at DESC LIMIT 1 over the active jobs. */
  ghost predicate Newest(db: Db, j: JobId, m: Machine, p: Profile) {
    Active(db, j, m, p) && forall i :: Active(db, i, m, p) ==> db.jobs[i].createdAt <= db.jobs[j].createdAt
  }

  /** The synthetic code row: already expired and already redeemed. */
  function MenuCode(db: Db, m: Machine, p: Profile): Code {
    Code(m, p, None, db.now, 0, None, Some(db.now), None, true)
  }

  /** Attaching a boot token to job j, giving the job a synthetic code first when it has none. */
  function MintOnJob(db: Db, j: JobId, k: CodeKey, t: TokenHash, ttl: nat): Option<Db>
    requires j in db.jobs
  {
    var job := db.jobs[j];
    if job.code.Some? then InsertToken(db, t, Token(job.code.value, Boot, db.now + ttl, None))
    else if k in db.codes then None
    else
      InsertToken(db.(codes := db.codes[k := MenuCode(db, job.machine, job.profile)],
                      jobs := db.jobs[j := job.(code := Some(k))]), t, Token(k, Boot, db.now + ttl, None))
  }

  /** No active job was found: a synthetic code, a pending job on it, and its token. */
  function MintNewJob(db: Db, m: Machine, p: Profile, j: JobId, k: CodeKey, t: TokenHash, created: nat, ttl: nat): Option<Db> {
    if j in db.jobs || k in db.codes then None
    else
      InsertToken(db.(codes := db.codes[k := MenuCode(db, m, p)],
                      jobs := db.jobs[j := Job(m, p, Some(k), Pending, created, None, Menu)]),
                  t, Token(k, Boot, db.now + ttl, None))
  }
}
