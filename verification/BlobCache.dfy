/**
 The edge agent's blob cache: any number of callers of `ensure`, the in-flight
 map with its done channels, and fills that walk the cache, evict, download,
 verify and publish. Eviction passes run without a lock, so they overlap file
 by file. The URL path has already been cleaned by the mux, so it names the
 file.
 */
module BlobCache {
  import opened Basics
  import opened MapSum
  import opened Eviction

  type Caller = nat
  type Chan = nat
  type Digest = string

  // --- content-addressed keys -----------------------------------------------------

  const BLOBS: string := "/blobs/"

  predicate IsHex(c: char) { '0' <= c <= '9' || 'a' <= c <= 'f' }

  predicate AllHex(s: string) { forall i :: 0 <= i < |s| ==> IsHex(s[i]) }

  function TrimBlobs(url: string): string { if BLOBS <= url then url[|BLOBS|..] else url }

  /** The match of ^[0-9a-f]{2}/([0-9a-f]{64})- on the path below /blobs/. */
  function BlobDigest(url: string): Option<Digest> {
    var key := TrimBlobs(url);
    if |key| >= 68 && AllHex(key[..2]) && key[2] == '/' && AllHex(key[3..67]) && key[67] == '-' then Some(key[3..67]) else None
  }

  /** key has the form <2-hex>/<64-hex digest>-<name>. */
  ghost predicate KeyFor(key: string, digest: Digest) {
    |digest| == 64 && AllHex(digest)
    && exists shard, name :: |shard| == 2 && AllHex(shard) && key == shard + "/" + digest + "-" + name
  }

  lemma HexDigits(c: char)
    ensures IsHex(c) <==> c in "0123456789abcdef"
  {
  }

  lemma KeyParts(key: string, digest: Digest)
    ensures KeyFor(key, digest) <==>
            |key| >= 68 && AllHex(key[..2]) && key[2] == '/' && AllHex(key[3..67]) && key[67] == '-' && key[3..67] == digest
  {
    if KeyFor(key, digest) {
      var shard, name :| |shard| == 2 && AllHex(shard) && key == shard + "/" + digest + "-" + name;
      assert key[..2] == shard && key[3..67] == digest && key[2] == '/' && key[67] == '-';
    }
    if |key| >= 68 && key[2] == '/' && key[67] == '-' && key[3..67] == digest {
      assert key == key[..2] + "/" + digest + "-" + key[68..];
    }
  }

  /** A path carries a digest exactly when it is a key for it, with or without /blobs/ before it; an absolute one has it. */
  lemma KeyFormat(url: string, digest: Digest)
    ensures BlobDigest(url) == Some(digest) <==>
            KeyFor(url, digest) || exists key :: url == "/blobs/" + key && KeyFor(key, digest)
    ensures url != "" && url[0] == '/' ==> !KeyFor(url, digest)
  {
    KeyParts(url, digest);
    KeyParts(TrimBlobs(url), digest);
    HexDigits('/');
    hide KeyFor;
    if BLOBS <= url {
      assert url == "/blobs/" + url[7..];
    }
    if key :| url == "/blobs/" + key && KeyFor(key, digest) {
      assert url[7..] == key;
    }
  }

  lemma Reassociate(a: string, b: string, c: string, d: string, e: string, f: string)
    ensures a + b + c + d + e + f == a + (b + c + d + e + f)
  {
  }

  /** Every upload's path carries the digest that its name promises. */
  lemma UploadsAreVerified(shard: string, digest: Digest, name: string)
    requires |shard| == 2 && AllHex(shard) && |digest| == 64 && AllHex(digest)
    ensures BlobDigest("/blobs/" + shard + "/" + digest + "-" + name) == Some(digest)
  {
    hide AllHex, BlobDigest;
    var key := shard + "/" + digest + "-" + name;
    assert KeyFor(key, digest);
    assert "/blobs/" + shard + "/" + digest + "-" + name == "/blobs/" + key by { Reassociate("/blobs/", shard, "/", digest, "-", name); }
    hide KeyFor;
    KeyFormat("/blobs/" + key, digest);
  }

  // --- the state machine ---------------------------------------------------------------

  datatype Pc =
    | Checking                                   // about to stat the file
    | Missed                                     // the file was not there; about to lock
    | Waiting(ch: Chan)
    | Requesting(ch: Chan)                       // filler: in-flight entry made
    | Sized(ch: Chan, need: nat)                 // filler: positive length known, about to make room
    | Walking(ch: Chan, need: nat, pass: nat)    // filler: in evictFor, walking the cache
    | Evicting(ch: Chan, need: nat, pass: nat, todo: seq<Path>, total: int)  // filler: in evictFor, removing
    | Reserved(ch: Chan, need: nat, room: Option<nat>)  // filler: evictFor returned; none was called for length 0
    | Unbounded(ch: Chan)                        // filler: the response carries no length
    | Written(ch: Chan, content: seq<nat>, room: Option<nat>)  // filler: body copied to the temporary file
    | Ended(ch: Chan, ok: bool)                  // fill returned; in-flight entry still there
    | Returned(ok: bool)

  datatype Call = Call(path: Path, pc: Pc)

  datatype Pub = Pub(path: Path, size: nat, pass: nat)

  /**
   One call of evictFor: the files it has yet to visit and the entries it
   holds, with size and modification time, less those it removed. For the
   history, which fills were between their walk and their publish when its
   walk began, and what has been published since.
   */
  datatype Pass = Pass(owner: Option<Caller>, need: nat, left: set<Path>, kept: map<Path, nat>, times: map<Path, Time>,
                       window: set<Caller>, pubs: map<Caller, Pub>, done: bool)

  /** `opener` and `closes` are the history of done channels: who made one, how often it was closed. Passes are in
      the order in which their walks began. */
  datatype World = World(disk: Disk, inflight: map<Path, Chan>, calls: map<Caller, Call>,
                         opener: map<Chan, Caller>, closes: map<Chan, nat>, passes: seq<Pass>, now: Time)

  datatype Event =
    | Tick(d: nat)
    | Arrive(c: Caller, path: Path)
    | Stat(c: Caller)
    | Lock(c: Caller, made: Chan)
    | Wake(c: Caller)
    | CancelWait(c: Caller)
    | Respond(c: Caller, ok: bool, length: Option<nat>)
    | BeginWalk(c: Caller)
    | Visit(c: Caller, p: Path)
    | EndWalk(c: Caller, order: seq<Path>)
    | Evict(c: Caller, removable: bool)
    | Copy(c: Caller, ok: bool, content: seq<nat>)
    | Publish(c: Caller, ok: bool)
    | Finish(c: Caller)
    | Touch(path: Path)

  predicate Filling(pc: Pc) {
    || pc.Requesting? || pc.Sized? || pc.Walking? || pc.Evicting? || pc.Reserved? || pc.Unbounded? || pc.Written?
    || pc.Ended?
  }

  /** Between the start of its walk and its publish. */
  predicate InWindow(pc: Pc) {
    pc.Walking? || pc.Evicting? || (pc.Reserved? && pc.room.Some?) || (pc.Written? && pc.room.Some?)
  }

  function Window(calls: map<Caller, Call>): set<Caller> { set c | c in calls && InWindow(calls[c].pc) }

  function SetPc(w: World, c: Caller, pc: Pc): World
    requires c in w.calls
  {
    w.(calls := w.calls[c := w.calls[c].(pc := pc)])
  }

  function StepLock(w: World, c: Caller, made: Chan): World {
    if c !in w.calls || !w.calls[c].pc.Missed? then w
    else
      var path := w.calls[c].path;
      if path in w.inflight then SetPc(w, c, Waiting(w.inflight[path]))
      else if made in w.opener then w
      else SetPc(w.(inflight := w.inflight[path := made], opener := w.opener[made := c], closes := w.closes[made := 0]),
                 c, Requesting(made))
  }

  function StepFinish(w: World, c: Caller): World {
    if c !in w.calls || !w.calls[c].pc.Ended? then w
    else
      var ch := w.calls[c].pc.ch;
      var n := if ch in w.closes then w.closes[ch] else 0;
      SetPc(w.(inflight := w.inflight - {w.calls[c].path}, closes := w.closes[ch := n + 1]), c, Returned(w.calls[c].pc.ok))
  }

  /** The response headers: a positive length is made room for, any other is not. */
  function StepRespond(w: World, c: Caller, ok: bool, length: Option<nat>): World {
    if c !in w.calls || !w.calls[c].pc.Requesting? then w
    else
      var ch := w.calls[c].pc.ch;
      SetPc(w, c, if !ok then Ended(ch, false)
                  else if length == None then Unbounded(ch)
                  else if length.value == 0 then Reserved(ch, 0, None)
                  else Sized(ch, length.value))
  }

  /** The walk starts: every file now there will be visited, unless it is gone by then. */
  function StepBeginWalk(w: World, c: Caller): World {
    if c !in w.calls || !w.calls[c].pc.Sized? then w
    else
      var need := w.calls[c].pc.need;
      var pass := Pass(Some(c), need, w.disk.Keys, map[], map[], Window(w.calls) + {c}, map[], false);
      SetPc(w.(passes := w.passes + [pass]), c, Walking(w.calls[c].pc.ch, need, |w.passes|))
  }

  /** The walk comes to p, an old file or one that has appeared since. */
  function StepVisit(w: World, c: Caller, p: Path): World {
    if c !in w.calls || !w.calls[c].pc.Walking? || w.calls[c].pc.pass >= |w.passes| then w
    else
      var i := w.calls[c].pc.pass;
      w.(passes := w.passes[i := Visited(w.passes[i], w.disk, p)])
  }

  function Visited(pass: Pass, disk: Disk, p: Path): Pass {
    if p !in disk then pass.(left := pass.left - {p})
    else pass.(left := pass.left - {p}, kept := pass.kept[p := |disk[p].content|], times := pass.times[p := disk[p].mtime])
  }

  /** What sort.Slice may leave: the entries, none before an older one. */
  ghost predicate Sortable(pass: Pass, order: seq<Path>) {
    && (forall p :: p in pass.kept <==> p in order) && (forall p :: p in pass.kept ==> p in pass.times)
    && (forall i, j :: 0 <= i < j < |order| ==> order[i] != order[j])
    && (forall i, j :: 0 <= i < j < |order| && order[i] in pass.times && order[j] in pass.times ==>
          pass.times[order[i]] <= pass.times[order[j]])
  }

  ghost function StepEndWalk(w: World, c: Caller, order: seq<Path>): World {
    if c !in w.calls || !w.calls[c].pc.Walking? || w.calls[c].pc.pass >= |w.passes| then w
    else
      var pc := w.calls[c].pc;
      var pass := w.passes[pc.pass];
      if pass.left != {} || !Sortable(pass, order) then w
      else SetPc(w, c, Evicting(pc.ch, pc.need, pc.pass, order, Sum(pass.kept)))
  }

  /** One turn of the removal loop: it is enough, or nothing is left to try, or the next entry is tried. */
  function StepEvict(w: World, c: Caller, removable: bool, maxBytes: nat): World {
    if c !in w.calls || !w.calls[c].pc.Evicting? || w.calls[c].pc.pass >= |w.passes| then w
    else
      var pc := w.calls[c].pc;
      var pass := w.passes[pc.pass];
      if pc.total + pc.need <= maxBytes then
        SetPc(w.(passes := w.passes[pc.pass := pass.(done := true)]), c, Reserved(pc.ch, pc.need, Some(pc.pass)))
      else if pc.todo == [] then SetPc(w, c, Ended(pc.ch, false))
      else
        var p := pc.todo[0];
        if !removable || p !in w.disk then SetPc(w, c, pc.(todo := pc.todo[1..]))
        else
          SetPc(w.(disk := w.disk - {p}, passes := w.passes[pc.pass := pass.(kept := pass.kept - {p})]), c,
                pc.(todo := pc.todo[1..], total := pc.total - Held(pass.kept, p)))
  }

  function Held(kept: map<Path, nat>, p: Path): nat { if p in kept then kept[p] else 0 }

  /** The body; with a declared length the transport delivers exactly that many bytes or an error. */
  function StepCopy(w: World, c: Caller, ok: bool, content: seq<nat>): World {
    if c !in w.calls || !(w.calls[c].pc.Reserved? || w.calls[c].pc.Unbounded?) then w
    else
      var pc := w.calls[c].pc;
      SetPc(w, c, if !ok || (pc.Reserved? && |content| != pc.need) then Ended(pc.ch, false)
                  else Written(pc.ch, content, if pc.Reserved? then pc.room else None))
  }

  /** Every pass learns of what is published since its walk began. */
  function Tell(passes: seq<Pass>, c: Caller, path: Path, size: nat, room: Option<nat>): seq<Pass> {
    if room.None? then passes
    else seq(|passes|, i requires 0 <= i < |passes| => passes[i].(pubs := passes[i].pubs[c := Pub(path, size, room.value)]))
  }

  /** Verification, then the rename that makes the file visible. */
  function StepPublish(w: World, c: Caller, ok: bool, sha: seq<nat> -> Digest): World {
    if c !in w.calls || !w.calls[c].pc.Written? then w
    else
      var path, content, ch := w.calls[c].path, w.calls[c].pc.content, w.calls[c].pc.ch;
      var want := BlobDigest(path);
      if want.Some? && sha(content) != want.value then SetPc(w, c, Ended(ch, false))
      else if !ok then SetPc(w, c, Ended(ch, false))
      else
        var told := Tell(w.passes, c, path, |content|, w.calls[c].pc.room);
        SetPc(w.(disk := w.disk[path := File(content, w.now)], passes := told), c, Ended(ch, true))
  }

  ghost function Step(w: World, e: Event, sha: seq<nat> -> Digest, maxBytes: nat): World {
    match e
    case Tick(d) => w.(now := w.now + d)
    case Arrive(c, path) => if c in w.calls then w else w.(calls := w.calls[c := Call(path, Checking)])
    case Stat(c) =>
      if c !in w.calls || !w.calls[c].pc.Checking? then w
      else SetPc(w, c, if w.calls[c].path in w.disk then Returned(true) else Missed)
    case Lock(c, made) => StepLock(w, c, made)
    case Wake(c) =>
      if c in w.calls && w.calls[c].pc.Waiting? && w.calls[c].pc.ch in w.closes && w.closes[w.calls[c].pc.ch] > 0
      then SetPc(w, c, Checking) else w
    case CancelWait(c) => if c in w.calls && w.calls[c].pc.Waiting? then SetPc(w, c, Returned(false)) else w
    case Respond(c, ok, length) => StepRespond(w, c, ok, length)
    case BeginWalk(c) => StepBeginWalk(w, c)
    case Visit(c, p) => StepVisit(w, c, p)
    case EndWalk(c, order) => StepEndWalk(w, c, order)
    case Evict(c, removable) => StepEvict(w, c, removable, maxBytes)
    case Copy(c, ok, content) => StepCopy(w, c, ok, content)
    case Publish(c, ok) => StepPublish(w, c, ok, sha)
    case Finish(c) => StepFinish(w, c)
    case Touch(p) => if p in w.disk then w.(disk := w.disk[p := w.disk[p].(mtime := w.now)]) else w
  }

  ghost function Run(w: World, es: seq<Event>, sha: seq<nat> -> Digest, maxBytes: nat): World {
    if es == [] then w else Step(Run(w, es[..|es| - 1], sha, maxBytes), es[|es| - 1], sha, maxBytes)
  }

  /** What is there at the start, as if a pass had just found it. */
  function StartPass(disk: Disk): Pass { Pass(None, 0, {}, Sizes(disk), map[], {}, map[], true) }

  ghost predicate Init(w: World) {
    && w.inflight == map[] && w.calls == map[] && w.opener == map[] && w.closes == map[]
    && w.passes == [StartPass(w.disk)]
  }

  // --- the steps inside a fill --------------------------------------------------------------

  predicate InFill(e: Event) {
    e.Respond? || e.BeginWalk? || e.Visit? || e.EndWalk? || e.Evict? || e.Copy? || e.Publish?
  }

  /** Only the disk, the passes and the filler's own place change, and the filler goes on filling on its channel. */
  ghost predicate FillerMoves(w: World, v: World, c: Caller) {
    v == w || (&& c in w.calls && c in v.calls && Filling(w.calls[c].pc) && Filling(v.calls[c].pc)
               && v.calls[c].pc.ch == w.calls[c].pc.ch
               && v == SetPc(w.(disk := v.disk, passes := v.passes), c, v.calls[c].pc))
  }

  lemma EvictMoves(w: World, c: Caller, removable: bool, maxBytes: nat)
    ensures FillerMoves(w, StepEvict(w, c, removable, maxBytes), c)
    ensures forall p :: p in StepEvict(w, c, removable, maxBytes).disk ==> p in w.disk && w.disk[p] == StepEvict(w, c, removable, maxBytes).disk[p]
  {
  }

  lemma FillMoves(w: World, e: Event, sha: seq<nat> -> Digest, maxBytes: nat)
    requires InFill(e)
    ensures FillerMoves(w, Step(w, e, sha, maxBytes), e.c)
  {
    hide BlobDigest, Tell, Window, Sortable, StepEvict;
    match e
    case Evict(c, removable) => EvictMoves(w, c, removable, maxBytes);
    case _ =>
  }

  /** No success, no body but the copied one, nothing added to the disk. */
  ghost predicate NoSuccess(w: World, v: World, e: Event, c: Caller)
    requires c in w.calls
  {
    && c in v.calls
    && (v.calls[c].pc.Ended? ==> v.calls[c].pc == w.calls[c].pc || !v.calls[c].pc.ok)
    && (v.calls[c].pc.Written? ==> v.calls[c].pc == w.calls[c].pc || (e.Copy? && v.calls[c].pc.content == e.content))
    && (forall p :: p in v.disk ==> p in w.disk && w.disk[p] == v.disk[p])
  }

  lemma EvictNoSuccess(w: World, c: Caller, removable: bool, maxBytes: nat)
    requires c in w.calls
    ensures NoSuccess(w, StepEvict(w, c, removable, maxBytes), Evict(c, removable), c)
  {
  }

  /** Nothing but a publish ends a fill with success or adds to the disk. */
  lemma OnlyPublishSucceeds(w: World, e: Event, sha: seq<nat> -> Digest, maxBytes: nat)
    requires InFill(e) && !e.Publish? && e.c in w.calls
    ensures NoSuccess(w, Step(w, e, sha, maxBytes), e, e.c)
  {
    hide StepBeginWalk, StepVisit, StepEndWalk, StepEvict;
    match e
    case BeginWalk(c) => WalkNoSuccess(w, e, sha, maxBytes);
    case Visit(c, p) => WalkNoSuccess(w, e, sha, maxBytes);
    case EndWalk(c, order) => WalkNoSuccess(w, e, sha, maxBytes);
    case Evict(c, removable) => EvictNoSuccess(w, c, removable, maxBytes);
    case _ =>
  }

  lemma WalkNoSuccess(w: World, e: Event, sha: seq<nat> -> Digest, maxBytes: nat)
    requires (e.BeginWalk? || e.Visit? || e.EndWalk?) && e.c in w.calls
    ensures NoSuccess(w, Step(w, e, sha, maxBytes), e, e.c)
  {
    hide Window, Sortable, Visited;
  }

  // --- single flight --------------------------------------------------------------------

  /** Caller c is filling its path and channel ch is its done channel. */
  ghost predicate FillsOn(w: World, c: Caller, ch: Chan) { c in w.calls && Filling(w.calls[c].pc) && w.calls[c].pc.ch == ch }

  /** A filler owns the in-flight entry of its path, and its channel is open. */
  ghost predicate FillersOwn(w: World) {
    forall c :: c in w.calls && Filling(w.calls[c].pc) ==>
      && w.calls[c].pc.ch in w.opener && w.opener[w.calls[c].pc.ch] == c
      && w.calls[c].path in w.inflight && w.inflight[w.calls[c].path] == w.calls[c].pc.ch
  }

  /** Every in-flight entry has its filler. */
  ghost predicate EntriesFilled(w: World) {
    forall p :: p in w.inflight ==>
      && w.inflight[p] in w.opener && FillsOn(w, w.opener[w.inflight[p]], w.inflight[p])
      && w.calls[w.opener[w.inflight[p]]].path == p
  }

  /** A channel is open while its filler runs, and closed exactly once after. */
  ghost predicate ClosedOnce(w: World) {
    && w.opener.Keys == w.closes.Keys
    && forall ch :: ch in w.opener ==> w.closes[ch] == if FillsOn(w, w.opener[ch], ch) then 0 else 1
  }

  /** A waiter waits on a channel that was made. */
  ghost predicate WaitersKnown(w: World) {
    forall c :: c in w.calls && w.calls[c].pc.Waiting? ==> w.calls[c].pc.ch in w.opener
  }

  ghost predicate SingleFlight(w: World) { FillersOwn(w) && EntriesFilled(w) && ClosedOnce(w) && WaitersKnown(w) }

  lemma WaitKeeps(w: World, c: Caller)
    requires SingleFlight(w) && c in w.calls && w.calls[c].pc.Missed? && w.calls[c].path in w.inflight
    ensures SingleFlight(SetPc(w, c, Waiting(w.inflight[w.calls[c].path])))
  {
    var v := SetPc(w, c, Waiting(w.inflight[w.calls[c].path]));
    assert forall d, ch :: FillsOn(v, d, ch) <==> FillsOn(w, d, ch);
  }

  ghost function Claimed(w: World, c: Caller, made: Chan): World
    requires c in w.calls
  {
    SetPc(w.(inflight := w.inflight[w.calls[c].path := made], opener := w.opener[made := c], closes := w.closes[made := 0]),
          c, Requesting(made))
  }

  lemma ClaimKeepsOwners(w: World, c: Caller, made: Chan)
    requires SingleFlight(w) && c in w.calls && w.calls[c].pc.Missed? && w.calls[c].path !in w.inflight && made !in w.opener
    ensures FillersOwn(Claimed(w, c, made)) && WaitersKnown(Claimed(w, c, made))
  {
    hide EntriesFilled, ClosedOnce;
  }

  lemma ClaimKeepsEntries(w: World, c: Caller, made: Chan)
    requires SingleFlight(w) && c in w.calls && w.calls[c].pc.Missed? && w.calls[c].path !in w.inflight && made !in w.opener
    ensures EntriesFilled(Claimed(w, c, made)) && ClosedOnce(Claimed(w, c, made))
  {
    hide FillersOwn, WaitersKnown;
    var v := Claimed(w, c, made);
    assert forall d, ch :: ch != made ==> (FillsOn(v, d, ch) <==> FillsOn(w, d, ch));
  }

  lemma LockKeeps(w: World, c: Caller, made: Chan)
    requires SingleFlight(w)
    ensures SingleFlight(StepLock(w, c, made))
  {
    hide FillersOwn, EntriesFilled, ClosedOnce, WaitersKnown;
    if c in w.calls && w.calls[c].pc.Missed? {
      if w.calls[c].path in w.inflight {
        WaitKeeps(w, c);
      } else if made !in w.opener {
        ClaimKeepsOwners(w, c, made);
        ClaimKeepsEntries(w, c, made);
      }
    }
  }

  lemma FinishKeepsOwners(w: World, c: Caller)
    requires SingleFlight(w) && c in w.calls && w.calls[c].pc.Ended?
    ensures FillersOwn(StepFinish(w, c)) && WaitersKnown(StepFinish(w, c))
  {
    hide EntriesFilled, ClosedOnce;
  }

  lemma FinishKeepsEntries(w: World, c: Caller)
    requires SingleFlight(w) && c in w.calls && w.calls[c].pc.Ended?
    ensures EntriesFilled(StepFinish(w, c)) && ClosedOnce(StepFinish(w, c))
  {
    hide WaitersKnown;
    var v := StepFinish(w, c);
    assert FillsOn(w, c, w.calls[c].pc.ch);
    assert forall d, ch :: d != c ==> (FillsOn(v, d, ch) <==> FillsOn(w, d, ch));
  }

  lemma FinishKeeps(w: World, c: Caller)
    requires SingleFlight(w)
    ensures SingleFlight(StepFinish(w, c))
  {
    hide FillersOwn, EntriesFilled, ClosedOnce, WaitersKnown;
    if c in w.calls && w.calls[c].pc.Ended? {
      FinishKeepsOwners(w, c);
      FinishKeepsEntries(w, c);
    }
  }

  /** A filler that goes on filling on its own channel, or a caller outside a fill that does not enter one. */
  lemma MoveKeeps(w: World, c: Caller, pc: Pc, disk: Disk, passes: seq<Pass>)
    requires SingleFlight(w) && c in w.calls
    requires if Filling(w.calls[c].pc) then Filling(pc) && pc.ch == w.calls[c].pc.ch else !Filling(pc) && !pc.Waiting?
    ensures SingleFlight(SetPc(w.(disk := disk, passes := passes), c, pc))
  {
  }

  lemma FillKeeps(w: World, e: Event, sha: seq<nat> -> Digest, maxBytes: nat)
    requires SingleFlight(w) && InFill(e)
    ensures SingleFlight(Step(w, e, sha, maxBytes))
  {
    hide SingleFlight, Step;
    FillMoves(w, e, sha, maxBytes);
    var v := Step(w, e, sha, maxBytes);
    if v != w {
      MoveKeeps(w, e.c, v.calls[e.c].pc, v.disk, v.passes);
    }
  }

  lemma CallKeeps(w: World, c: Caller, pc: Pc)
    requires SingleFlight(w) && c in w.calls && !Filling(w.calls[c].pc) && !Filling(pc) && !pc.Waiting?
    ensures SingleFlight(SetPc(w, c, pc))
  {
    hide SingleFlight;
    MoveKeeps(w, c, pc, w.disk, w.passes);
  }

  lemma StepKeepsSingleFlight(w: World, e: Event, sha: seq<nat> -> Digest, maxBytes: nat)
    requires SingleFlight(w)
    ensures SingleFlight(Step(w, e, sha, maxBytes))
  {
    hide SingleFlight, StepLock, StepFinish, StepRespond, StepBeginWalk, StepVisit, StepEndWalk, StepEvict, StepCopy, StepPublish;
    if InFill(e) {
      FillKeeps(w, e, sha, maxBytes);
    } else {
      match e
      case Arrive(c, path) => if c !in w.calls { ArriveKeeps(w, c, path); }
      case Stat(c) =>
        if c in w.calls && w.calls[c].pc.Checking? {
          CallKeeps(w, c, if w.calls[c].path in w.disk then Returned(true) else Missed);
        }
      case Lock(c, made) => LockKeeps(w, c, made);
      case Wake(c) => if c in w.calls && w.calls[c].pc.Waiting? { CallKeeps(w, c, Checking); }
      case CancelWait(c) => if c in w.calls && w.calls[c].pc.Waiting? { CallKeeps(w, c, Returned(false)); }
      case Finish(c) => FinishKeeps(w, c);
      case Tick(d) => DiskKeeps(w, w.disk, w.now + d);
      case Touch(p) => DiskKeeps(w, Step(w, e, sha, maxBytes).disk, w.now);
      case _ =>
    }
  }

  lemma ArriveKeeps(w: World, c: Caller, path: Path)
    requires SingleFlight(w) && c !in w.calls
    ensures SingleFlight(w.(calls := w.calls[c := Call(path, Checking)]))
  {
  }

  lemma DiskKeeps(w: World, disk: Disk, now: Time)
    requires SingleFlight(w)
    ensures SingleFlight(w.(disk := disk, now := now))
  {
  }

  lemma {:induction false} RunSingleFlight(w: World, es: seq<Event>, sha: seq<nat> -> Digest, maxBytes: nat)
    requires Init(w)
    ensures SingleFlight(Run(w, es, sha, maxBytes))
  {
    if es != [] {
      RunSingleFlight(w, es[..|es| - 1], sha, maxBytes);
      StepKeepsSingleFlight(Run(w, es[..|es| - 1], sha, maxBytes), es[|es| - 1], sha, maxBytes);
    }
  }

  /**
   In every run: one fill at a time per path, a path is in the in-flight map
   exactly while a caller fills it, every done channel has been closed once
   if its filler has ended and not at all before.
   */
  lemma OneFillAtATime(w: World, es: seq<Event>, sha: seq<nat> -> Digest, maxBytes: nat)
    requires Init(w)
    ensures var v := Run(w, es, sha, maxBytes);
            && (forall a, b ::
                  a in v.calls && b in v.calls && Filling(v.calls[a].pc) && Filling(v.calls[b].pc) && v.calls[a].path == v.calls[b].path ==>
                  a == b)
            && (forall p :: p in v.inflight <==> exists c :: c in v.calls && Filling(v.calls[c].pc) && v.calls[c].path == p)
            && (forall ch :: ch in v.opener ==> ch in v.closes && v.closes[ch] == if FillsOn(v, v.opener[ch], ch) then 0 else 1)
  {
    RunSingleFlight(w, es, sha, maxBytes);
    var v := Run(w, es, sha, maxBytes);
    forall p | p in v.inflight
      ensures exists c :: c in v.calls && Filling(v.calls[c].pc) && v.calls[c].path == p
    {
      assert FillsOn(v, v.opener[v.inflight[p]], v.inflight[p]);
    }
  }

  /** A caller that missed the file becomes its filler exactly when nobody else is; otherwise it waits on the filler's channel. */
  lemma LockDecides(w: World, es: seq<Event>, sha: seq<nat> -> Digest, maxBytes: nat, c: Caller, made: Chan)
    requires Init(w)
    requires var v := Run(w, es, sha, maxBytes); c in v.calls && v.calls[c].pc.Missed? && made !in v.opener
    ensures var v := Run(w, es, sha, maxBytes);
            var after := Step(v, Lock(c, made), sha, maxBytes).calls[c].pc;
            if f :| f in v.calls && Filling(v.calls[f].pc) && v.calls[f].path == v.calls[c].path
            then after == Waiting(v.calls[f].pc.ch) else after == Requesting(made)
  {
    RunSingleFlight(w, es, sha, maxBytes);
    OneFillAtATime(w, es, sha, maxBytes);
  }

  /** No waiter is stranded: the filler of its channel is still running, or the waiter can go on at once; and it can
      always give up. */
  lemma NoWaiterIsStranded(w: World, es: seq<Event>, sha: seq<nat> -> Digest, maxBytes: nat, c: Caller)
    requires Init(w)
    requires var v := Run(w, es, sha, maxBytes); c in v.calls && v.calls[c].pc.Waiting?
    ensures var v := Run(w, es, sha, maxBytes);
            var ch := v.calls[c].pc.ch;
            && ch in v.opener
            && (FillsOn(v, v.opener[ch], ch)
                || Step(v, Wake(c), sha, maxBytes) == SetPc(v, c, Checking))
            && Step(v, CancelWait(c), sha, maxBytes) == SetPc(v, c, Returned(false))
  {
    RunSingleFlight(w, es, sha, maxBytes);
  }

  // --- verified content -------------------------------------------------------------------

  /** Every cached file under a content-addressed key hashes to the digest in the key. */
  ghost predicate Verified(disk: Disk, sha: seq<nat> -> Digest) {
    forall p :: p in disk && BlobDigest(p).Some? ==> sha(disk[p].content) == BlobDigest(p).value
  }

  lemma StepKeepsVerified(w: World, e: Event, sha: seq<nat> -> Digest, maxBytes: nat)
    requires Verified(w.disk, sha)
    ensures Verified(Step(w, e, sha, maxBytes).disk, sha)
  {
    hide BlobDigest, StepLock, StepFinish, StepRespond, StepBeginWalk, StepVisit, StepEndWalk, StepEvict, StepCopy;
    if InFill(e) && !e.Publish? {
      if e.c in w.calls {
        OnlyPublishSucceeds(w, e, sha, maxBytes);
      } else {
        FillMoves(w, e, sha, maxBytes);
      }
    } else if e.Lock? || e.Finish? {
      NoFiles(w, e, sha, maxBytes);
    }
  }

  lemma NoFiles(w: World, e: Event, sha: seq<nat> -> Digest, maxBytes: nat)
    requires !InFill(e) && !e.Touch?
    ensures Step(w, e, sha, maxBytes).disk == w.disk && Step(w, e, sha, maxBytes).passes == w.passes
  {
  }

  /** In every reachable state, failed, retried and evicted fills included. */
  lemma {:induction false} AlwaysVerified(w: World, es: seq<Event>, sha: seq<nat> -> Digest, maxBytes: nat)
    requires Verified(w.disk, sha)
    ensures Verified(Run(w, es, sha, maxBytes).disk, sha)
  {
    hide Step, Verified;
    if es != [] {
      AlwaysVerified(w, es[..|es| - 1], sha, maxBytes);
      StepKeepsVerified(Run(w, es[..|es| - 1], sha, maxBytes), es[|es| - 1], sha, maxBytes);
    }
  }

  /** So every upload found on disk, at any time, hashes to the digest that its path names. */
  lemma UploadsOnDiskAreGood(w: World, es: seq<Event>, sha: seq<nat> -> Digest, maxBytes: nat, shard: string, digest: Digest,
                             name: string)
    requires Verified(w.disk, sha) && |shard| == 2 && AllHex(shard) && |digest| == 64 && AllHex(digest)
    ensures var p := "/blobs/" + shard + "/" + digest + "-" + name;
            var disk := Run(w, es, sha, maxBytes).disk;
            p in disk ==> sha(disk[p].content) == digest
  {
    hide Run, BlobDigest;
    AlwaysVerified(w, es, sha, maxBytes);
    UploadsAreVerified(shard, digest, name);
  }

  /** Every body the origin delivers for the path fails to hash to the digest in it. */
  ghost predicate BadOrigin(w: World, es: seq<Event>, sha: seq<nat> -> Digest, maxBytes: nat, p: Path, digest: Digest) {
    forall n :: 0 <= n < |es| && es[n].Copy? ==>
      var v := Run(w, es[..n], sha, maxBytes);
      es[n].c in v.calls && v.calls[es[n].c].path == p ==> sha(es[n].content) != digest
  }

  /** The call has not been told that its path is cached, and what it is writing, if anything, is bad. */
  ghost predicate Unserved(call: Call, sha: seq<nat> -> Digest, digest: Digest) {
    match call.pc
    case Written(_, content, _) => sha(content) != digest
    case Ended(_, ok) => !ok
    case Returned(ok) => !ok
    case _ => true
  }

  ghost predicate NoneServed(calls: map<Caller, Call>, sha: seq<nat> -> Digest, p: Path, digest: Digest) {
    forall c :: c in calls && calls[c].path == p ==> Unserved(calls[c], sha, digest)
  }

  /** The path is not cached and nobody has been told that it is. */
  ghost predicate NotServed(w: World, sha: seq<nat> -> Digest, p: Path, digest: Digest) {
    p !in w.disk && NoneServed(w.calls, sha, p, digest)
  }

  lemma BadIsNotPublished(w: World, e: Event, sha: seq<nat> -> Digest, maxBytes: nat, p: Path, digest: Digest)
    requires NotServed(w, sha, p, digest) && BlobDigest(p) == Some(digest)
    ensures p !in Step(w, e, sha, maxBytes).disk
  {
    hide BlobDigest, Step;
    OnlyPublishAdds(w, e, sha, maxBytes, p);
    if Publishes(w, e, sha, maxBytes, p) {
      assert Unserved(w.calls[e.c], sha, digest);
      BadIsRefused(w, e.c, e.ok, sha, maxBytes);
    }
  }

  /** The event publishes the file at p. */
  ghost predicate Publishes(w: World, e: Event, sha: seq<nat> -> Digest, maxBytes: nat, p: Path) {
    && e.Publish? && e.c in w.calls && w.calls[e.c].path == p && w.calls[e.c].pc.Written?
    && var v := Step(w, e, sha, maxBytes); v.calls[e.c].pc == Ended(w.calls[e.c].pc.ch, true)
  }

  lemma OnlyPublishAdds(w: World, e: Event, sha: seq<nat> -> Digest, maxBytes: nat, p: Path)
    requires p !in w.disk
    ensures p in Step(w, e, sha, maxBytes).disk <==> Publishes(w, e, sha, maxBytes, p)
  {
    hide BlobDigest, StepLock, StepFinish, StepRespond, StepBeginWalk, StepVisit, StepEndWalk, StepEvict, StepCopy;
    if InFill(e) && !e.Publish? {
      if e.c in w.calls {
        OnlyPublishSucceeds(w, e, sha, maxBytes);
      } else {
        FillMoves(w, e, sha, maxBytes);
      }
    } else if e.Lock? || e.Finish? {
      NoFiles(w, e, sha, maxBytes);
    }
  }

  lemma BadIsRefused(w: World, c: Caller, ok: bool, sha: seq<nat> -> Digest, maxBytes: nat)
    requires c in w.calls && w.calls[c].pc.Written?
    requires BlobDigest(w.calls[c].path).Some? && sha(w.calls[c].pc.content) != BlobDigest(w.calls[c].path).value
    ensures Step(w, Publish(c, ok), sha, maxBytes) == SetPc(w, c, Ended(w.calls[c].pc.ch, false))
  {
    hide BlobDigest;
  }

  lemma OneMoves(calls: map<Caller, Call>, c: Caller, pc: Pc, sha: seq<nat> -> Digest, p: Path, digest: Digest)
    requires NoneServed(calls, sha, p, digest) && c in calls && (calls[c].path == p ==> Unserved(calls[c].(pc := pc), sha, digest))
    ensures NoneServed(calls[c := calls[c].(pc := pc)], sha, p, digest)
  {
    hide Unserved;
  }

  lemma FillerNotTold(w: World, e: Event, sha: seq<nat> -> Digest, maxBytes: nat, p: Path, digest: Digest)
    requires NotServed(w, sha, p, digest) && BlobDigest(p) == Some(digest) && InFill(e)
    requires e.Copy? && e.c in w.calls && w.calls[e.c].path == p ==> sha(e.content) != digest
    ensures NoneServed(Step(w, e, sha, maxBytes).calls, sha, p, digest)
  {
    hide BlobDigest, Step;
    FillMoves(w, e, sha, maxBytes);
    var v := Step(w, e, sha, maxBytes);
    if v != w {
      assert w.calls[e.c].path == p ==> Unserved(w.calls[e.c], sha, digest);
      if !e.Publish? {
        OnlyPublishSucceeds(w, e, sha, maxBytes);
      } else if w.calls[e.c].path == p {
        PublishNeedsWritten(w, e.c, e.ok, sha, maxBytes);
        BadIsRefused(w, e.c, e.ok, sha, maxBytes);
      }
      OneMoves(w.calls, e.c, v.calls[e.c].pc, sha, p, digest);
    }
  }

  lemma PublishNeedsWritten(w: World, c: Caller, ok: bool, sha: seq<nat> -> Digest, maxBytes: nat)
    requires Step(w, Publish(c, ok), sha, maxBytes) != w
    ensures c in w.calls && w.calls[c].pc.Written?
  {
    hide BlobDigest, Tell;
  }

  lemma OthersNotTold(w: World, e: Event, sha: seq<nat> -> Digest, maxBytes: nat, p: Path, digest: Digest)
    requires NotServed(w, sha, p, digest) && !InFill(e)
    ensures NoneServed(Step(w, e, sha, maxBytes).calls, sha, p, digest)
  {
  }

  lemma StepNotServed(w: World, e: Event, sha: seq<nat> -> Digest, maxBytes: nat, p: Path, digest: Digest)
    requires NotServed(w, sha, p, digest) && BlobDigest(p) == Some(digest)
    requires e.Copy? && e.c in w.calls && w.calls[e.c].path == p ==> sha(e.content) != digest
    ensures NotServed(Step(w, e, sha, maxBytes), sha, p, digest)
  {
    hide BlobDigest, Step, NoneServed;
    BadIsNotPublished(w, e, sha, maxBytes, p, digest);
    if InFill(e) {
      FillerNotTold(w, e, sha, maxBytes, p, digest);
    } else {
      OthersNotTold(w, e, sha, maxBytes, p, digest);
    }
  }

  /** While the origin delivers only bad bytes for a path, the path is never cached and no caller is told it is. */
  lemma {:induction false} BadOriginIsNeverServed(w: World, es: seq<Event>, sha: seq<nat> -> Digest, maxBytes: nat, p: Path,
                                                  digest: Digest)
    requires Init(w) && p !in w.disk && BlobDigest(p) == Some(digest) && BadOrigin(w, es, sha, maxBytes, p, digest)
    ensures NotServed(Run(w, es, sha, maxBytes), sha, p, digest)
  {
    hide Step, BlobDigest;
    if es != [] {
      var front := es[..|es| - 1];
      forall n | 0 <= n < |front| && front[n].Copy?
        ensures var v := Run(w, front[..n], sha, maxBytes);
                front[n].c in v.calls && v.calls[front[n].c].path == p ==> sha(front[n].content) != digest
      {
        assert front[..n] == es[..n] && front[n] == es[n];
      }
      BadOriginIsNeverServed(w, front, sha, maxBytes, p, digest);
      assert es[..|front|] == front;
      StepNotServed(Run(w, front, sha, maxBytes), es[|es| - 1], sha, maxBytes, p, digest);
    }
  }

  // --- what room is asked for, and what serving does -------------------------------------

  /** A fill makes room for a positive length only, and an empty body is written without. */
  predicate RoomFor(pc: Pc) {
    && (pc.Sized? || pc.Walking? || pc.Evicting? ==> pc.need > 0)
    && (pc.Reserved? ==> (pc.room.None? <==> pc.need == 0))
  }

  ghost predicate RoomOk(calls: map<Caller, Call>) { forall c :: c in calls ==> RoomFor(calls[c].pc) }

  /** The step left caller c with a place that asks for room as it should. */
  ghost predicate LeavesRoom(v: World, c: Caller) { c in v.calls && RoomFor(v.calls[c].pc) }

  lemma OpeningRoom(w: World, c: Caller, ok: bool, length: Option<nat>, p: Path, order: seq<Path>)
    requires LeavesRoom(w, c)
    ensures LeavesRoom(StepRespond(w, c, ok, length), c) && LeavesRoom(StepBeginWalk(w, c), c)
    ensures LeavesRoom(StepVisit(w, c, p), c) && LeavesRoom(StepEndWalk(w, c, order), c)
  {
    hide Window, Sortable, Visited;
  }

  lemma ClosingRoom(w: World, c: Caller, ok: bool, content: seq<nat>, sha: seq<nat> -> Digest, maxBytes: nat)
    requires LeavesRoom(w, c)
    ensures LeavesRoom(StepEvict(w, c, ok, maxBytes), c) && LeavesRoom(StepCopy(w, c, ok, content), c)
    ensures LeavesRoom(StepPublish(w, c, ok, sha), c)
  {
    hide Tell, BlobDigest, Held;
  }

  lemma OwnRoomOk(w: World, e: Event, sha: seq<nat> -> Digest, maxBytes: nat)
    requires InFill(e) && LeavesRoom(w, e.c)
    ensures LeavesRoom(Step(w, e, sha, maxBytes), e.c)
  {
    hide LeavesRoom, StepRespond, StepBeginWalk, StepVisit, StepEndWalk, StepEvict, StepCopy, StepPublish;
    OpeningRoom(w, e.c, e.Respond? && e.ok, if e.Respond? then e.length else None, if e.Visit? then e.p else "",
                if e.EndWalk? then e.order else []);
    ClosingRoom(w, e.c, if e.Evict? then e.removable else (e.Copy? || e.Publish?) && e.ok,
                if e.Copy? then e.content else [], sha, maxBytes);
  }

  lemma OtherRoomOk(w: World, e: Event, sha: seq<nat> -> Digest, maxBytes: nat)
    requires !InFill(e) && RoomOk(w.calls)
    ensures RoomOk(Step(w, e, sha, maxBytes).calls)
  {
    hide RoomFor;
    assert forall pc: Pc :: pc.Checking? || pc.Missed? || pc.Waiting? || pc.Requesting? || pc.Returned? ==> RoomFor(pc) by {
      NoRoom();
    }
  }

  lemma NoRoom()
    ensures forall pc: Pc :: pc.Checking? || pc.Missed? || pc.Waiting? || pc.Requesting? || pc.Returned? ==> RoomFor(pc)
  {
  }

  /** In every run no file is removed for an object of length 0 or of unknown length. */
  lemma {:induction false} RoomOnlyForBodies(w: World, es: seq<Event>, sha: seq<nat> -> Digest, maxBytes: nat)
    requires Init(w)
    ensures RoomOk(Run(w, es, sha, maxBytes).calls)
  {
    hide Step, RoomFor;
    if es != [] {
      RoomOnlyForBodies(w, es[..|es| - 1], sha, maxBytes);
      var v, e := Run(w, es[..|es| - 1], sha, maxBytes), es[|es| - 1];
      if InFill(e) {
        FillMoves(v, e, sha, maxBytes);
        if e.c in v.calls {
          OwnRoomOk(v, e, sha, maxBytes);
        }
      } else {
        OtherRoomOk(v, e, sha, maxBytes);
      }
    }
  }

  /** Serving a file makes it the last to be evicted, whatever order ties are sorted in. */
  lemma ServedGoesLast(w: World, p: Path, order: seq<Path>, sha: seq<nat> -> Digest, maxBytes: nat)
    requires p in w.disk && forall q :: q in w.disk && q != p ==> w.disk[q].mtime < w.now
    requires OldestFirst(Step(w, Touch(p), sha, maxBytes).disk, order)
    ensures order != [] && order[|order| - 1] == p
    ensures Step(w, Touch(p), sha, maxBytes).disk[p].content == w.disk[p].content
  {
    var disk := Step(w, Touch(p), sha, maxBytes).disk;
    assert p in order;
    var i :| 0 <= i < |order| && order[i] == p;
    var last := order[|order| - 1];
    assert last in disk;
  }

  // --- a good fill ---------------------------------------------------------------------------

  predicate OwnStep(e: Event, c: Caller) { (e.Copy? || e.Publish? || e.Finish?) && e.c == c }

  /** What caller c does itself from its body on. */
  function Own(es: seq<Event>, c: Caller): seq<Event> {
    if es == [] then [] else Own(es[..|es| - 1], c) + if OwnStep(es[|es| - 1], c) then [es[|es| - 1]] else []
  }

  /** The body arrives whole, the rename works, the channel is closed. */
  function GoodFill(c: Caller, content: seq<nat>): seq<Event> { [Copy(c, true, content), Publish(c, true), Finish(c)] }

  /** Where the caller is after n of these. */
  function After(ch: Chan, content: seq<nat>, room: Option<nat>, n: nat): Pc {
    if n == 0 then Reserved(ch, |content|, room) else if n == 1 then Written(ch, content, room)
    else if n == 2 then Ended(ch, true) else Returned(true)
  }

  lemma OthersLeave(w: World, e: Event, c: Caller, sha: seq<nat> -> Digest, maxBytes: nat)
    requires c in w.calls && !OwnStep(e, c)
    requires var pc := w.calls[c].pc; pc.Reserved? || pc.Written? || pc.Ended? || pc.Returned?
    ensures c in Step(w, e, sha, maxBytes).calls && Step(w, e, sha, maxBytes).calls[c] == w.calls[c]
  {
    hide BlobDigest, Tell, Sortable, Window;
    if InFill(e) && e.c != c {
      hide Step;
      FillMoves(w, e, sha, maxBytes);
    }
  }

  lemma OwnMoves(w: World, c: Caller, content: seq<nat>, ch: Chan, room: Option<nat>, n: nat, sha: seq<nat> -> Digest, maxBytes: nat)
    requires n < 3 && c in w.calls && w.calls[c].pc == After(ch, content, room, n)
    requires BlobDigest(w.calls[c].path) in {None, Some(sha(content))}
    ensures var v := Step(w, GoodFill(c, content)[n], sha, maxBytes);
            && c in v.calls && v.calls[c] == w.calls[c].(pc := After(ch, content, room, n + 1))
            && (n == 1 ==> w.calls[c].path in v.disk && v.disk[w.calls[c].path].content == content)
  {
    hide BlobDigest, Tell;
  }

  /** The file stood in the cache, with its content, right after some event. */
  ghost predicate WasCached(w: World, es: seq<Event>, sha: seq<nat> -> Digest, maxBytes: nat, p: Path, content: seq<nat>) {
    exists n: nat :: n <= |es| && CachedThen(Run(w, es[..n], sha, maxBytes), p, content)
  }

  predicate CachedThen(w: World, p: Path, content: seq<nat>) { p in w.disk && w.disk[p].content == content }

  lemma WasCachedStays(w: World, es: seq<Event>, sha: seq<nat> -> Digest, maxBytes: nat, p: Path, content: seq<nat>)
    requires es != []
    ensures WasCached(w, es[..|es| - 1], sha, maxBytes, p, content) ==> WasCached(w, es, sha, maxBytes, p, content)
    ensures CachedThen(Run(w, es, sha, maxBytes), p, content) ==> WasCached(w, es, sha, maxBytes, p, content)
  {
    hide Run, CachedThen;
    var front := es[..|es| - 1];
    if n: nat :| n <= |front| && CachedThen(Run(w, front[..n], sha, maxBytes), p, content) {
      assert front[..n] == es[..n];
    }
    assert es[..|es|] == es;
  }

  lemma {:induction false} GoodFillAdvances(w: World, es: seq<Event>, c: Caller, content: seq<nat>, ch: Chan, room: Option<nat>,
                                            sha: seq<nat> -> Digest, maxBytes: nat)
    requires c in w.calls && w.calls[c].pc == Reserved(ch, |content|, room)
    requires BlobDigest(w.calls[c].path) in {None, Some(sha(content))} && Own(es, c) <= GoodFill(c, content)
    ensures var v := Run(w, es, sha, maxBytes);
            && c in v.calls && v.calls[c] == w.calls[c].(pc := After(ch, content, room, |Own(es, c)|))
            && (|Own(es, c)| > 1 ==> WasCached(w, es, sha, maxBytes, w.calls[c].path, content))
  {
    hide Step, BlobDigest, WasCached;
    if es != [] {
      var front, e := es[..|es| - 1], es[|es| - 1];
      GoodFillAdvances(w, front, c, content, ch, room, sha, maxBytes);
      var v := Run(w, front, sha, maxBytes);
      WasCachedStays(w, es, sha, maxBytes, w.calls[c].path, content);
      if OwnStep(e, c) {
        assert e == Own(es, c)[|Own(front, c)|] == GoodFill(c, content)[|Own(front, c)|];
        OwnMoves(v, c, content, ch, room, |Own(front, c)|, sha, maxBytes);
      } else {
        OthersLeave(v, e, c, sha, maxBytes);
      }
    }
  }

  /** Whatever everybody else does meanwhile, a filler whose body is good and whose calls succeed publishes it and
      returns success. */
  lemma GoodFillSucceeds(w: World, es: seq<Event>, c: Caller, content: seq<nat>, sha: seq<nat> -> Digest, maxBytes: nat)
    requires c in w.calls && w.calls[c].pc.Reserved? && w.calls[c].pc.need == |content|
    requires BlobDigest(w.calls[c].path) in {None, Some(sha(content))} && Own(es, c) == GoodFill(c, content)
    ensures var v := Run(w, es, sha, maxBytes); c in v.calls && v.calls[c] == Call(w.calls[c].path, Returned(true))
    ensures WasCached(w, es, sha, maxBytes, w.calls[c].path, content)
  {
    hide Run, BlobDigest, WasCached, Own;
    GoodFillAdvances(w, es, c, content, w.calls[c].pc.ch, w.calls[c].pc.room, sha, maxBytes);
  }
}
