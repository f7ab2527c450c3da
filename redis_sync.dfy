/** The advisory mutex of base/database/redis/sync.go. A `Mutex` is bound to
    one key and one random token; it holds the lock while the store maps the
    key to its token. Acquisition is a SETNX with a 10 s lease; release,
    renewal and the lease query are Lua scripts that compare the stored
    value with the token and act only on a match.

    Every operation is one round trip whose fate is an input (`Transport`):
    the network is not modelled otherwise. `SpinLock` runs on a model clock
    with the store's time advancing 100 ms between attempts. */
module RedisSync {
  import opened Wrappers
  import opened RedisStore
  import Base64

  /** Go's `time.Duration`, in nanoseconds. */
  type Duration = int

  const Millisecond: Duration := 1_000_000
  const Second: Duration := 1000 * Millisecond

  /** The lease of every mutex `NewMutex` creates. */
  const LockExpiry: Duration := 10 * Second

  /** SpinLock waits this long between two attempts ... */
  const RetryInterval: Duration := 100 * Millisecond

  /** ... and gives up once this much time has passed since it started. */
  const SpinTimeout: Duration := 10 * Second

  /** Attempts start at 0, 100, ..., 9900 ms; the 10 s deadline comes before
      the timer of a 101st. */
  const MaxAttempts: nat := SpinTimeout / RetryInterval

  const RetryMs: nat := RetryInterval / Millisecond

  /** The token `genValue` falls back to when no randomness is available. */
  const FallbackToken: string := "default-value"

  /** The errors of the mutex. Go compares them by identity. */
  datatype Error =
    | LockFailed       // ErrLockFailed, "lock failed": declared, never returned
    | NotObtained      // ErrLockObtained, "not obtained"
    | NotHeld          // ErrLockNotHeld, "lock not held"
    | SpinLockTimeOut  // ErrSpinLockTimeOut, "spin lock time out"
    | RedisNil         // the client's red.Nil, passed through
    | Transport        // any other error of the client, passed through

  /** What `rand.Read` gave: it failed, or it filled the buffer. */
  datatype Entropy = ReadFailed | Random(bytes: seq<Base64.Byte>)

  /** `genValue`: the base64 text of 16 random bytes, a 24-character string
      ending in "==", or the fixed fallback when the random source fails;
      the fallback can never equal a random token. */
  function GenValue(src: Entropy): (token: string)
    ensures src.ReadFailed? ==> token == FallbackToken
    ensures src.Random? && |src.bytes| == 16 ==>
      |token| == 24 && token[22..] == "==" && token != FallbackToken
  {
    match src
    case ReadFailed => FallbackToken
    case Random(b) => Base64.EncodePadding(b); Base64.Encode(b)
  }

  /** Two different random draws give two different tokens, so two mutexes
      that both got randomness never pass each other's ownership checks. */
  lemma DistinctDrawsDistinctTokens(a: seq<Base64.Byte>, b: seq<Base64.Byte>)
    requires a != b
    ensures GenValue(Random(a)) != GenValue(Random(b))
  {
    Base64.EncodeInjective(a, b);
  }

  /** The lifetime go-redis sends with SETNX: none for a zero expiration,
      else whole milliseconds, at least one (EX for whole seconds, PX
      otherwise). Negative expirations are treated as none. */
  function SetExpiryMs(d: Duration): (ms: nat)
    ensures d > 0 <==> ms > 0
  {
    if d <= 0 then 0 else if d < Millisecond then 1 else d / Millisecond
  }

  /** Go's `d / time.Millisecond`, which truncates toward zero. */
  function Milliseconds(d: Duration): int {
    if d >= 0 then d / Millisecond else -((-d) / Millisecond)
  }

  /** What `obtain` returns for the reply to its SETNX: true for "OK" (or
      an integer 1), false with no error for a nil reply, false with the
      error when the round trip failed. */
  function ObtainResult(resp: Response): (r: (bool, Option<Error>))
    ensures r.0 <==> resp == Answer(Ok) || resp == Answer(Integer(1))
    ensures r.1 == (if resp.NetError? then Some(Transport) else None)
    ensures r.0 ==> r.1 == None
    ensures resp == Answer(Nil) ==> r == (false, None)
  {
    match resp
    case NetError => (false, Some(Transport))
    case Answer(reply) => (reply == Ok || reply == Integer(1), None)
  }

  /** What `Unlock` returns for the reply to `deleteScript`: success exactly
      when the script deleted one key; "lock not held" for any other reply
      (a nil reply included); a failed round trip is passed through. */
  function UnlockResult(resp: Response): (r: (bool, Option<Error>))
    ensures r.0 <==> resp == Answer(Integer(1))
    ensures r.0 <==> r.1 == None
    ensures resp.NetError? ==> r.1 == Some(Transport)
    ensures resp.Answer? && !r.0 ==> r.1 == Some(NotHeld)
  {
    match resp
    case NetError => (false, Some(Transport))
    case Answer(reply) => if reply == Integer(1) then (true, None) else (false, Some(NotHeld))
  }

  /** What `TTL` returns for the reply to `luaPTTL`: a positive pttl in
      milliseconds as a duration; zero with no error for every other integer
      (the sentinel -3 of a non-owner, -1 of a key without expiry) and for a
      nil reply; a failed round trip is passed through. A status reply would
      make the type assertion panic and is excluded. */
  function TTLResult(resp: Response): (r: (Duration, Option<Error>))
    requires resp != Answer(Ok)
    ensures r.1 == (if resp.NetError? then Some(Transport) else None)
    ensures r.0 >= 0
    ensures r.0 > 0 <==> resp.Answer? && resp.reply.Integer? && resp.reply.n > 0
    ensures r.0 > 0 ==> r.0 == resp.reply.n * Millisecond
  {
    match resp
    case NetError => (0, Some(Transport))
    case Answer(Nil) => (0, None)
    case Answer(Integer(n)) => if n > 0 then (n * Millisecond, None) else (0, None)
  }

  /** What `Extend` returns for the reply to `luaExtend`: nil exactly when
      the script answered 1; the client's error (red.Nil included) passed
      through; "not obtained" for any other reply. */
  function ExtendResult(resp: Response): (r: Option<Error>)
    ensures r == None <==> resp == Answer(Integer(1))
    ensures resp.NetError? ==> r == Some(Transport)
    ensures resp == Answer(Nil) ==> r == Some(RedisNil)
    ensures resp.Answer? && resp.reply != Nil && resp.reply != Integer(1) ==> r == Some(NotObtained)
  {
    match resp
    case NetError => Some(Transport)
    case Answer(reply) =>
      if reply == Nil then Some(RedisNil)
      else if reply == Integer(1) then None
      else Some(NotObtained)
  }

  /** `obtain` over a delivered round trip: the SETNX writes key -> token
      with the lease only when the key is absent, and reports true exactly
      then; when the key is present the store is unchanged. */
  lemma ObtainSetsOnlyWhenAbsent(db: Db, key: string, token: string, ttl: Duration)
    ensures var c := SetNX(key, token, SetExpiryMs(ttl));
      ObtainResult(Seen(db, c, Delivered)) == (key !in db, None) &&
      (key in db ==> After(db, c, Delivered) == db) &&
      (key !in db ==> Holds(After(db, c, Delivered), key, token) &&
                      After(db, c, Delivered)[key].expiry == ExpiryFor(SetExpiryMs(ttl)))
  {
  }

  /** `Unlock` over a delivered round trip: it deletes the key and succeeds
      exactly when the stored value is the caller's token; otherwise it
      reports "lock not held" and the store is unchanged. Hence a second
      `Unlock` after a successful one reports "lock not held". */
  lemma UnlockIsOwnershipGated(db: Db, key: string, token: string)
    ensures var c := DeleteScript(key, token);
      var db1 := After(db, c, Delivered);
      UnlockResult(Seen(db, c, Delivered)) ==
        (if Holds(db, key, token) then (true, None) else (false, Some(NotHeld))) &&
      (Holds(db, key, token) ==> key !in db1 && db1 == db - {key}) &&
      (!Holds(db, key, token) ==> db1 == db) &&
      UnlockResult(Seen(db1, c, Delivered)) == (false, Some(NotHeld))
  {
    var c := DeleteScript(key, token);
    var db1 := After(db, c, Delivered);
    if Holds(db, key, token) {
      assert db1.Keys == (db - {key}).Keys;
    }
  }

  /** `TTL` over a delivered round trip: the remaining lease in milliseconds
      when the caller owns the key and it has a positive lease; zero, with no
      error, for a non-owner, an absent key or a key without expiry. */
  lemma TTLReportsOwnLease(db: Db, key: string, token: string)
    requires Live(db)
    ensures TTLResult(Seen(db, LuaPTTL(key, token), Delivered)) ==
      (if Holds(db, key, token) && db[key].expiry.ExpiresIn?
       then (db[key].expiry.ms * Millisecond, None) else (0, None))
  {
  }

  /** `Extend` over a delivered round trip with the mutex's 10 s lease: when
      the caller owns the key its lease is reset to 10000 ms, the value is
      kept and nil is returned; otherwise "not obtained" is returned and the
      store is unchanged. */
  lemma ExtendRenewsOwnLease(db: Db, key: string, token: string)
    ensures var c := LuaExtend(key, token, Milliseconds(LockExpiry));
      var db1 := After(db, c, Delivered);
      ExtendResult(Seen(db, c, Delivered)) == (if Holds(db, key, token) then None else Some(NotObtained)) &&
      (Holds(db, key, token) ==> Holds(db1, key, token) && db1[key].expiry == ExpiresIn(10000)) &&
      (!Holds(db, key, token) ==> db1 == db) &&
      db1 - {key} == db - {key}
  {
  }

  /** The fate of a `SpinLock` call: the store when it returns, its result,
      how many SETNX attempts it made, and the store each of those attempts
      found. */
  datatype SpinOutcome = SpinOutcome(db: Db, err: Option<Error>, attempts: nat, seen: seq<Db>)

  /** The store each attempt found; an attempt always finds one. */
  function LastSeen(r: SpinOutcome): Db
    requires r.seen != []
  {
    r.seen[|r.seen| - 1]
  }

  /** The pause of 100 ms after a failed attempt: the other clients run
      `steps`, interleaving their commands with the time that passes, and
      whatever is left of the 100 ms passes after them. */
  function Pause(db: Db, steps: seq<Step>): Db {
    Tick(Replay(db, steps), if Elapsed(steps) <= RetryMs then RetryMs - Elapsed(steps) else 0)
  }

  /** The pauses of a `SpinLock` call when `others(j)` is what happens
      during the pause after attempt j. */
  function PauseWith(others: nat -> seq<Step>): (nat, Db) -> Db {
    (j: nat, db: Db) => Pause(db, others(j))
  }

  /** With nobody else about, every pause is just 100 ms passing. */
  lemma QuietPauses(others: nat -> seq<Step>)
    requires forall j :: others(j) == []
    ensures forall j: nat, db: Db :: PauseWith(others)(j, db) == Tick(db, RetryMs)
  {
    forall j: nat, db: Db ensures PauseWith(others)(j, db) == Tick(db, RetryMs) {
      assert others(j) == [] && Replay(db, []) == db;
    }
  }

  /** One SETNX attempt of the loop: the result carries no error exactly
      when the round trip went through, and then it reports true exactly
      when the key was absent; a present key is left as it was, an absent
      one now holds the token. */
  lemma SetNXAttempt(db: Db, key: string, token: string, ttlMs: nat, t: Transport)
    ensures var c := SetNX(key, token, ttlMs);
      var o := ObtainResult(Seen(db, c, t));
      (o.1 == None <==> t == Delivered) &&
      (t == Delivered ==> (o.0 <==> key !in db)) &&
      (t == Delivered && key in db ==> After(db, c, t) == db) &&
      (t == Delivered && key !in db ==> Holds(After(db, c, t), key, token))
  {
  }

  /** `SpinLock` from attempt `k` on (attempt `k` starts at k * 100 ms).
      `net(j)` is the fate of attempt j's round trip; `pause(j, d)` is the
      store the next attempt finds when the pause after attempt j starts
      from `d` (`PauseWith` builds it from what other clients do). The loop
      makes at most 100 attempts, records the store each one found, and
      ends with nil or the timeout. */
  function Spin(db: Db, key: string, token: string, ttlMs: nat,
                net: nat -> Transport, pause: (nat, Db) -> Db, k: nat): (r: SpinOutcome)
    requires k < MaxAttempts
    ensures k < r.attempts <= MaxAttempts
    ensures |r.seen| == r.attempts - k && r.seen[0] == db
    ensures r.err == None || r.err == Some(SpinLockTimeOut)
    decreases MaxAttempts - k
  {
    var c := SetNX(key, token, ttlMs);
    var (ok, e) := ObtainResult(Seen(db, c, net(k)));
    var db1 := After(db, c, net(k));
    if e.Some? || ok then SpinOutcome(db1, None, k + 1, [db])
    else if k + 1 == MaxAttempts then SpinOutcome(db1, Some(SpinLockTimeOut), k + 1, [db])
    else
      var r := Spin(pause(k, db1), key, token, ttlMs, net, pause, k + 1);
      SpinOutcome(r.db, r.err, r.attempts, [db] + r.seen)
  }

  /** One turn of the loop: a failed round trip or a free key ends it
      with nil, a key found present at the 100th attempt ends it with the
      timeout, and a key found present earlier is followed by a pause and
      the next attempt. */
  lemma SpinStep(db: Db, key: string, token: string, ttlMs: nat,
                 net: nat -> Transport, pause: (nat, Db) -> Db, k: nat)
    requires k < MaxAttempts
    ensures var r := Spin(db, key, token, ttlMs, net, pause, k);
      net(k) != Delivered || key !in db ==>
        r.err == None && r.attempts == k + 1 && r.seen == [db] &&
        r.db == After(db, SetNX(key, token, ttlMs), net(k))
    ensures var r := Spin(db, key, token, ttlMs, net, pause, k);
      net(k) == Delivered && key in db && k + 1 == MaxAttempts ==>
        r.err == Some(SpinLockTimeOut) && r.attempts == k + 1 && r.seen == [db] && r.db == db
    ensures var r := Spin(db, key, token, ttlMs, net, pause, k);
      net(k) == Delivered && key in db && k + 1 < MaxAttempts ==>
        var r1 := Spin(pause(k, db), key, token, ttlMs, net, pause, k + 1);
        r.db == r1.db && r.err == r1.err && r.attempts == r1.attempts && r.seen == [db] + r1.seen
  {
    SetNXAttempt(db, key, token, ttlMs, net(k));
  }

  /** Attempt `k + j`, the `j`-th of `r`, went through and found the key
      present. */
  ghost predicate RefusedAt(r: SpinOutcome, key: string, net: nat -> Transport, k: nat, j: nat)
    requires j < |r.seen|
  {
    net(k + j) == Delivered && key in r.seen[j]
  }

  /** Every attempt of `r` but the last (attempt `k` is its first) went
      through and found the key present. */
  ghost predicate RefusedBeforeLast(r: SpinOutcome, key: string, net: nat -> Transport, k: nat) {
    forall j: nat :: j < |r.seen| - 1 ==> RefusedAt(r, key, net, k, j)
  }

  /** A refused attempt in front of a run of refusals is a run of
      refusals. */
  lemma RefusedCons(r: SpinOutcome, r1: SpinOutcome, db: Db, key: string, net: nat -> Transport, k: nat)
    requires RefusedBeforeLast(r1, key, net, k + 1)
    requires r.seen == [db] + r1.seen && r1.seen != []
    requires net(k) == Delivered && key in db
    ensures RefusedBeforeLast(r, key, net, k)
  {
    forall j: nat | j < |r.seen| - 1 ensures RefusedAt(r, key, net, k, j) {
      if j > 0 {
        assert RefusedAt(r1, key, net, k + 1, j - 1);
        assert r.seen[j] == r1.seen[j - 1] && k + j == (k + 1) + (j - 1);
      }
    }
  }

  /** The loop goes on only past a refusal: every attempt but the last
      went through and found the key present, so it wrote nothing. */
  lemma {:induction false} SpinRetriesOnlyWhenHeld(db: Db, key: string, token: string, ttlMs: nat,
                                                  net: nat -> Transport, pause: (nat, Db) -> Db, k: nat)
    requires k < MaxAttempts
    ensures RefusedBeforeLast(Spin(db, key, token, ttlMs, net, pause, k), key, net, k)
    decreases MaxAttempts - k
  {
    var r := Spin(db, key, token, ttlMs, net, pause, k);
    SpinStep(db, key, token, ttlMs, net, pause, k);
    if net(k) == Delivered && key in db && k + 1 < MaxAttempts {
      var r1 := Spin(pause(k, db), key, token, ttlMs, net, pause, k + 1);
      SpinRetriesOnlyWhenHeld(pause(k, db), key, token, ttlMs, net, pause, k + 1);
      RefusedCons(r, r1, db, key, net, k);
    } else {
      assert r.seen == [db];
    }
  }

  /** A nil result after a delivered round trip means the last attempt
      found the key free, and the caller now holds the lock. */
  lemma {:induction false} SpinNilMeansAcquired(db: Db, key: string, token: string, ttlMs: nat,
                                               net: nat -> Transport, pause: (nat, Db) -> Db, k: nat)
    requires k < MaxAttempts
    ensures var r := Spin(db, key, token, ttlMs, net, pause, k);
      r.err == None && net(r.attempts - 1) == Delivered ==> key !in LastSeen(r) && Holds(r.db, key, token)
    decreases MaxAttempts - k
  {
    var r := Spin(db, key, token, ttlMs, net, pause, k);
    SpinStep(db, key, token, ttlMs, net, pause, k);
    if net(k) != Delivered || key !in db {
      assert LastSeen(r) == db && r.attempts - 1 == k;
      if net(k) == Delivered {
        SetNXAttempt(db, key, token, ttlMs, net(k));
      }
    } else if k + 1 < MaxAttempts {
      var r1 := Spin(pause(k, db), key, token, ttlMs, net, pause, k + 1);
      SpinNilMeansAcquired(pause(k, db), key, token, ttlMs, net, pause, k + 1);
      assert LastSeen(r) == LastSeen(r1);
    }
  }

  /** The timeout comes only after the 100th attempt went through, found
      the key present and left the store as it was. */
  lemma {:induction false} SpinTimeoutMeansHeld(db: Db, key: string, token: string, ttlMs: nat,
                                               net: nat -> Transport, pause: (nat, Db) -> Db, k: nat)
    requires k < MaxAttempts
    ensures var r := Spin(db, key, token, ttlMs, net, pause, k);
      r.err == Some(SpinLockTimeOut) ==>
        r.attempts == MaxAttempts && net(MaxAttempts - 1) == Delivered &&
        key in LastSeen(r) && r.db == LastSeen(r)
    decreases MaxAttempts - k
  {
    var r := Spin(db, key, token, ttlMs, net, pause, k);
    SpinStep(db, key, token, ttlMs, net, pause, k);
    if net(k) == Delivered && key in db {
      if k + 1 == MaxAttempts {
        assert LastSeen(r) == db;
      } else {
        var r1 := Spin(pause(k, db), key, token, ttlMs, net, pause, k + 1);
        SpinTimeoutMeansHeld(pause(k, db), key, token, ttlMs, net, pause, k + 1);
        assert LastSeen(r) == LastSeen(r1);
      }
    }
  }

  /** Bounded wait, first half: when nobody else touches the store (each
      pause is just 100 ms passing) and the key is free, or taken with a
      lease that runs out before the last attempt, SpinLock acquires the
      lock and returns nil. */
  lemma {:induction false} SpinWaitsOutShortLease(db: Db, key: string, token: string, ttlMs: nat,
                                                 net: nat -> Transport, pause: (nat, Db) -> Db, k: nat)
    requires k < MaxAttempts && Live(db)
    requires forall j :: k <= j < MaxAttempts ==> net(j) == Delivered
    requires forall j: nat, d: Db :: pause(j, d) == Tick(d, RetryMs)
    requires key in db ==> db[key].expiry.ExpiresIn? && db[key].expiry.ms <= (MaxAttempts - 1 - k) * RetryMs
    ensures var r := Spin(db, key, token, ttlMs, net, pause, k);
      r.err == None && Holds(r.db, key, token)
    decreases MaxAttempts - k
  {
    if key in db {
      SpinWaitsOutShortLease(pause(k, db), key, token, ttlMs, net, pause, k + 1);
    }
  }

  /** A lease that outlasts the attempts from `k` on survives the pause
      after attempt `k`, and then outlasts the attempts from `k + 1` on. */
  lemma LongLeaseOutlivesPause(db: Db, key: string, k: nat)
    requires k + 1 < MaxAttempts
    requires key in db && Survives(db[key].expiry, (MaxAttempts - 1 - k) * RetryMs)
    ensures var db1 := Tick(db, RetryMs);
      key in db1 && db1[key].value == db[key].value &&
      Survives(db1[key].expiry, (MaxAttempts - 1 - (k + 1)) * RetryMs)
  {
  }

  /** Bounded wait, second half: when nobody else touches the store and the
      key is held with a lease that outlasts the last attempt (or no lease),
      SpinLock reports the timeout after its 100th attempt, and the holder
      keeps the key. */
  lemma {:induction false} SpinTimesOutBehindLongLease(db: Db, key: string, token: string, ttlMs: nat,
                                                      net: nat -> Transport, pause: (nat, Db) -> Db, k: nat)
    requires k < MaxAttempts
    requires forall j :: k <= j < MaxAttempts ==> net(j) == Delivered
    requires forall j: nat, d: Db :: pause(j, d) == Tick(d, RetryMs)
    requires key in db && Survives(db[key].expiry, (MaxAttempts - 1 - k) * RetryMs)
    ensures var r := Spin(db, key, token, ttlMs, net, pause, k);
      r.err == Some(SpinLockTimeOut) && r.attempts == MaxAttempts &&
      key in r.db && r.db[key].value == db[key].value
    decreases MaxAttempts - k
  {
    SpinStep(db, key, token, ttlMs, net, pause, k);
    if k + 1 < MaxAttempts {
      LongLeaseOutlivesPause(db, key, k);
      SpinTimesOutBehindLongLease(pause(k, db), key, token, ttlMs, net, pause, k + 1);
    }
  }

  /** The legacy behaviour on a store error: when the first round trip is
      lost, SpinLock returns nil at once although the caller holds nothing. */
  lemma SpinLockNilOnStoreError(db: Db, key: string, token: string, ttlMs: nat,
                                net: nat -> Transport, pause: (nat, Db) -> Db)
    requires net(0) == RequestLost
    requires key in db && db[key].value != token
    ensures var r := Spin(db, key, token, ttlMs, net, pause, 0);
      r.err == None && r.attempts == 1 && !Holds(r.db, key, token)
  {
  }

  /** A lock handle: `MutexRedis`. Its fields never change; all shared state
      is in the store. */
  class Mutex {
    const store: Store
    const key: string
    const value: string
    const expiry: Duration

    /** The composite literal `&MutexRedis{...}`. */
    constructor (store: Store, key: string, value: string, expiry: Duration)
      ensures this.store == store && this.key == key && this.value == value && this.expiry == expiry
    {
      this.store := store;
      this.key := key;
      this.value := value;
      this.expiry := expiry;
    }

    /** `obtain`: one SETNX of `token` on `name` with lifetime `ttl`. */
    method Obtain(name: string, token: string, ttl: Duration, net: Transport) returns (ok: bool, err: Option<Error>)
      modifies store
      ensures store.db == After(old(store.db), SetNX(name, token, SetExpiryMs(ttl)), net)
      ensures (ok, err) == ObtainResult(Seen(old(store.db), SetNX(name, token, SetExpiryMs(ttl)), net))
    {
      var resp := store.Send(SetNX(name, token, SetExpiryMs(ttl)), net);
      match resp
      case NetError => ok, err := false, Some(Transport);
      case Answer(reply) => ok, err := reply == Ok || reply == Integer(1), None;
    }

    /** `Lock`: one SETNX with the mutex's lease. Whatever happened (acquired,
        key taken, store error) it returns nil. */
    method Lock(net: Transport) returns (err: Option<Error>)
      modifies store
      ensures err == None
      ensures store.db == After(old(store.db), SetNX(key, value, SetExpiryMs(expiry)), net)
    {
      var ok, e := Obtain(key, value, expiry, net);
      if e.Some? {
        return None;
      } else if ok {
        return None;
      }
      return None;
    }

    /** The wait for the retry timer: other clients run `steps`, then the
        rest of the 100 ms passes. */
    method Wait(steps: seq<Step>)
      modifies store
      ensures store.db == Pause(old(store.db), steps)
    {
      store.Play(steps);
      store.Advance(if Elapsed(steps) <= RetryMs then RetryMs - Elapsed(steps) else 0);
    }

    /** `SpinLock`: SETNX until it succeeds, the store errs, or the 10 s
        deadline passes, waiting 100 ms between attempts. */
    method SpinLock(net: nat -> Transport, others: nat -> seq<Step>) returns (err: Option<Error>)
      modifies store
      ensures var r := Spin(old(store.db), key, value, SetExpiryMs(expiry), net, PauseWith(others), 0);
        store.db == r.db && err == r.err
    {
      var k: nat := 0;
      ghost var pause := PauseWith(others);
      ghost var goal := Spin(store.db, key, value, SetExpiryMs(expiry), net, pause, 0);
      while true
        invariant k < MaxAttempts
        invariant Spin(store.db, key, value, SetExpiryMs(expiry), net, pause, k).db == goal.db
        invariant Spin(store.db, key, value, SetExpiryMs(expiry), net, pause, k).err == goal.err
        decreases MaxAttempts - k
      {
        ghost var before := store.db;
        SpinStep(before, key, value, SetExpiryMs(expiry), net, pause, k);
        SetNXAttempt(before, key, value, SetExpiryMs(expiry), net(k));
        var ok, e := Obtain(key, value, expiry, net(k));
        if e.Some? {
          return None;
        } else if ok {
          return None;
        }
        // the deadline fires before the retry timer of the next attempt
        if k + 1 == MaxAttempts {
          return Some(SpinLockTimeOut);
        }
        assert net(k) == Delivered && key in before;
        assert store.db == before;
        Wait(others(k));
        assert store.db == pause(k, before);
        k := k + 1;
      }
    }

    /** `Unlock`: runs `deleteScript` with the mutex's token. */
    method Unlock(net: Transport) returns (ok: bool, err: Option<Error>)
      modifies store
      ensures store.db == After(old(store.db), DeleteScript(key, value), net)
      ensures (ok, err) == UnlockResult(Seen(old(store.db), DeleteScript(key, value), net))
    {
      var resp := store.Send(DeleteScript(key, value), net);
      if resp == Answer(Nil) {
        return false, Some(NotHeld);
      }
      if resp.NetError? {
        return false, Some(Transport);
      }
      if resp.reply != Integer(1) {
        return false, Some(NotHeld);
      }
      return true, None;
    }

    /** `TTL`: runs `luaPTTL` with the mutex's token; the store is unchanged. */
    method TTL(net: Transport) returns (d: Duration, err: Option<Error>)
      modifies store
      ensures store.db == old(store.db)
      ensures (d, err) == TTLResult(Seen(old(store.db), LuaPTTL(key, value), net))
    {
      var resp := store.Send(LuaPTTL(key, value), net);
      if resp == Answer(Nil) {
        return 0, None;
      } else if resp.NetError? {
        return 0, Some(Transport);
      }
      var num := resp.reply.n;
      if num > 0 {
        return num * Millisecond, None;
      }
      return 0, None;
    }

    /** `Extend`: runs `luaExtend` with the token and the lease in
        milliseconds. */
    method Extend(net: Transport) returns (err: Option<Error>)
      modifies store
      ensures store.db == After(old(store.db), LuaExtend(key, value, Milliseconds(expiry)), net)
      ensures err == ExtendResult(Seen(old(store.db), LuaExtend(key, value, Milliseconds(expiry)), net))
    {
      var ttlVal := Milliseconds(expiry);
      var resp := store.Send(LuaExtend(key, value, ttlVal), net);
      if resp.NetError? {
        return Some(Transport);
      } else if resp == Answer(Nil) {
        return Some(RedisNil);
      } else if resp.reply == Integer(1) {
        return None;
      }
      return Some(NotObtained);
    }
  }

  /** `SyncRedis`: the factory of mutexes over one store client. */
  class Sync {
    const client: Store

    /** `NewSync`. */
    constructor (r: Store)
      ensures client == r
    {
      client := r;
    }

    /** `NewMutex`: binds the key, draws the token with `genValue` and sets
        the 10 s lease; the store is not touched. */
    method NewMutex(key: string, random: Entropy) returns (m: Mutex)
      ensures fresh(m)
      ensures m.store == client && m.key == key && m.value == GenValue(random) && m.expiry == LockExpiry
      ensures client.db == old(client.db)
    {
      m := new Mutex(client, key, GenValue(random), LockExpiry);
    }
  }

  /** Two workers contend for "job:1": the second `Lock` returns nil too but
      leaves the first holder in place; only the holder's `TTL` sees the
      lease; after the holder's `Unlock` the other acquires; a stale
      `Unlock` then reports "lock not held". */
  method Scenario(a: seq<Base64.Byte>, b: seq<Base64.Byte>)
    requires |a| == 16 && |b| == 16 && a != b
  {
    var store := new Store();
    var sync := new Sync(store);
    var first := sync.NewMutex("job:1", Random(a));
    var second := sync.NewMutex("job:1", Random(b));
    DistinctDrawsDistinctTokens(a, b);

    var err := first.Lock(Delivered);
    assert Holds(store.db, "job:1", first.value);
    err := second.Lock(Delivered);
    assert err == None && Holds(store.db, "job:1", first.value);

    var d, e := first.TTL(Delivered);
    assert d == 10000 * Millisecond && e == None;
    d, e := second.TTL(Delivered);
    assert d == 0 && e == None;

    var ok, ue := first.Unlock(Delivered);
    assert ok && ue == None && "job:1" !in store.db;
    err := second.Lock(Delivered);
    assert Holds(store.db, "job:1", second.value);
    ok, ue := first.Unlock(Delivered);
    assert !ok && ue == Some(NotHeld);
  }
}
