/** The key-value store the advisory mutex of base/database/redis/sync.go runs
    against, reduced to what the mutex relies on: a map from key to a string
    value with an optional remaining lifetime in milliseconds, four atomic
    commands (SET ... NX with an expiry and the three Lua scripts of the
    mutex), and the passage of time, which drops the keys whose lifetime has
    run out. Each command runs atomically: the store serialises them. */
module RedisStore {

  /** How long a key still lives: for ever (a plain SETNX), or `ms`
      milliseconds. */
  datatype Expiry = Persistent | ExpiresIn(ms: nat)

  datatype Entry = Entry(value: string, expiry: Expiry)

  type Db = map<string, Entry>

  /** A reply on the wire: the status "OK", a nil reply, or an integer. */
  datatype Reply = Ok | Nil | Integer(n: int)

  /** What became of one round trip to the store: it went through, the
      request never reached the store, or the store executed the command but
      the reply was lost. The client sees an error in the last two cases. */
  datatype Transport = Delivered | RequestLost | ReplyLost

  /** What the client sees of a round trip. */
  datatype Response = Answer(reply: Reply) | NetError

  /** The commands the mutex sends. `token` is the value the command writes
      (SETNX) or compares the stored value with (the scripts). */
  datatype Command =
    | SetNX(key: string, token: string, ttlMs: nat)
    | LuaExtend(key: string, token: string, ms: int)
    | DeleteScript(key: string, token: string)
    | LuaPTTL(key: string, token: string)

  /** The key is present and holds `token`: the owner of `token` holds the
      lock named `key`. */
  predicate Holds(db: Db, key: string, token: string) {
    key in db && db[key].value == token
  }

  /** No key whose lifetime has run out is still present. */
  predicate Live(db: Db) {
    forall k :: k in db && db[k].expiry.ExpiresIn? ==> db[k].expiry.ms > 0
  }

  /** A SETNX with expiration 0 sets no expiry at all. */
  function ExpiryFor(ttlMs: nat): Expiry {
    if ttlMs == 0 then Persistent else ExpiresIn(ttlMs)
  }

  /** `SET key token PX ttl NX`: writes only when the key is absent, and
      answers "OK" exactly then (a nil reply otherwise). */
  function ExecSetNX(db: Db, key: string, token: string, ttlMs: nat): (r: (Db, Reply))
    ensures r.1 == (if key in db then Nil else Ok)
    ensures key in db ==> r.0 == db
    ensures key !in db ==> Holds(r.0, key, token) && r.0[key].expiry == ExpiryFor(ttlMs)
    ensures r.0 - {key} == db - {key}
  {
    if key in db then (db, Nil) else (db[key := Entry(token, ExpiryFor(ttlMs))], Ok)
  }

  /** The script `luaExtend`: if GET(key) equals the token, PEXPIRE the key
      (a non-positive lifetime deletes it) and answer PEXPIRE's 1; otherwise
      answer 0 and change nothing. */
  function ExecExtend(db: Db, key: string, token: string, ms: int): (r: (Db, Reply))
    ensures r.1 == (if Holds(db, key, token) then Integer(1) else Integer(0))
    ensures !Holds(db, key, token) ==> r.0 == db
    ensures Holds(db, key, token) && ms > 0 ==> Holds(r.0, key, token) && r.0[key].expiry == ExpiresIn(ms)
    ensures Holds(db, key, token) && ms <= 0 ==> key !in r.0
    ensures r.0 - {key} == db - {key}
  {
    if !Holds(db, key, token) then (db, Integer(0))
    else if ms <= 0 then (db - {key}, Integer(1))
    else (db[key := Entry(token, ExpiresIn(ms))], Integer(1))
  }

  /** The script `deleteScript`: if GET(key) equals the token, DEL the key and
      answer DEL's count 1; otherwise answer 0 and change nothing. */
  function ExecDelete(db: Db, key: string, token: string): (r: (Db, Reply))
    ensures r.1 == (if Holds(db, key, token) then Integer(1) else Integer(0))
    ensures Holds(db, key, token) ==> key !in r.0
    ensures !Holds(db, key, token) ==> r.0 == db
    ensures r.0 - {key} == db - {key}
  {
    if Holds(db, key, token) then (db - {key}, Integer(1)) else (db, Integer(0))
  }

  /** What PTTL answers for a present key: its remaining milliseconds, or -1
      when it has no expiry. */
  function RemainingMs(e: Expiry): int {
    match e
    case Persistent => -1
    case ExpiresIn(ms) => ms
  }

  /** The script `luaPTTL`: if GET(key) equals the token, answer PTTL(key);
      otherwise answer the sentinel -3. It changes nothing. */
  function ExecPTTL(db: Db, key: string, token: string): (r: Reply)
    ensures r.Integer?
    ensures Holds(db, key, token) && db[key].expiry.ExpiresIn? ==> r.n == db[key].expiry.ms
    ensures Holds(db, key, token) && db[key].expiry.Persistent? ==> r.n == -1
    ensures !Holds(db, key, token) ==> r.n == -3
  {
    if Holds(db, key, token) then Integer(RemainingMs(db[key].expiry)) else Integer(-3)
  }

  /** One command, executed atomically: the new contents and the reply. */
  function Exec(db: Db, c: Command): (Db, Reply) {
    match c
    case SetNX(key, token, ttlMs) => ExecSetNX(db, key, token, ttlMs)
    case LuaExtend(key, token, ms) => ExecExtend(db, key, token, ms)
    case DeleteScript(key, token) => ExecDelete(db, key, token)
    case LuaPTTL(key, token) => (db, ExecPTTL(db, key, token))
  }

  /** The store after one round trip: a lost request changes nothing. */
  function After(db: Db, c: Command, net: Transport): Db {
    if net == RequestLost then db else Exec(db, c).0
  }

  /** What the client sees of one round trip. */
  function Seen(db: Db, c: Command, net: Transport): Response {
    if net == Delivered then Answer(Exec(db, c).1) else NetError
  }

  predicate Survives(e: Expiry, elapsed: nat) {
    e.Persistent? || e.ms > elapsed
  }

  function Later(e: Expiry, elapsed: nat): Expiry {
    match e
    case Persistent => Persistent
    case ExpiresIn(ms) => ExpiresIn(if ms > elapsed then ms - elapsed else 0)
  }

  /** `elapsed` milliseconds pass: keys whose lifetime runs out disappear,
      the others keep their value and have that much less time left. */
  function Tick(db: Db, elapsed: nat): (r: Db)
    ensures forall k :: k in r <==> k in db && Survives(db[k].expiry, elapsed)
    ensures forall k :: k in r ==> r[k] == Entry(db[k].value, Later(db[k].expiry, elapsed))
    ensures Live(r)
  {
    map k | k in db && Survives(db[k].expiry, elapsed) :: Entry(db[k].value, Later(db[k].expiry, elapsed))
  }

  /** Letting time pass in two stretches is the same as letting it pass at once. */
  lemma TickAdditive(db: Db, a: nat, b: nat)
    ensures Tick(Tick(db, a), b) == Tick(db, a + b)
  {
    var lhs, rhs := Tick(Tick(db, a), b), Tick(db, a + b);
    forall k | k in db
      ensures k in lhs <==> k in rhs
      ensures k in lhs ==> lhs[k] == rhs[k]
    {
      if db[k].expiry.ExpiresIn? && db[k].expiry.ms > a {
        assert Later(db[k].expiry, a) == ExpiresIn(db[k].expiry.ms - a);
      }
    }
    assert lhs.Keys == rhs.Keys;
  }

  /** One step of a run of the system: a command of some client, or time
      passing. */
  datatype Step = Run(cmd: Command) | Elapse(ms: nat)

  function StepOnce(db: Db, s: Step): Db {
    match s
    case Run(c) => Exec(db, c).0
    case Elapse(ms) => Tick(db, ms)
  }

  function Replay(db: Db, steps: seq<Step>): Db
    decreases |steps|
  {
    if steps == [] then db else Replay(StepOnce(db, steps[0]), steps[1..])
  }

  /** Total time that passes during a run. */
  function Elapsed(steps: seq<Step>): nat
    decreases |steps|
  {
    if steps == [] then 0
    else (if steps[0].Elapse? then steps[0].ms else 0) + Elapsed(steps[1..])
  }

  /** A step that is not a command sent on `key` by the owner of `token`. */
  predicate Foreign(s: Step, key: string, token: string) {
    s.Run? ==> s.cmd.key != key || s.cmd.token != token
  }

  /** A SETNX of `token` on `key`: the only step that can make the owner of
      `token` the holder. */
  predicate Grants(s: Step, key: string, token: string) {
    s.Run? && s.cmd.SetNX? && s.cmd.key == key && s.cmd.token == token
  }

  /** Ownership-gated release and renewal: no command of another client, on
      any key, removes, overwrites or re-times the holder's entry. */
  lemma ForeignCommandKeepsHolder(db: Db, c: Command, key: string, owner: string)
    requires Holds(db, key, owner)
    requires c.key != key || c.token != owner
    ensures key in Exec(db, c).0 && Exec(db, c).0[key] == db[key]
  {
    var r := Exec(db, c).0;
    if c.key != key {
      assert key in db - {c.key};
    }
  }

  /** The lock survives everything other clients do: if the owner of `owner`
      holds `key` and sends nothing on it, then for as long as its lease has
      not run out it still holds the key, with the lease shortened by exactly
      the time that passed. So no other client obtains, releases or extends
      it in the meantime. */
  lemma {:induction false} HolderKeepsLock(db: Db, steps: seq<Step>, key: string, owner: string)
    requires Holds(db, key, owner)
    requires forall i :: 0 <= i < |steps| ==> Foreign(steps[i], key, owner)
    requires Survives(db[key].expiry, Elapsed(steps))
    ensures Holds(Replay(db, steps), key, owner)
    ensures Replay(db, steps)[key].expiry == Later(db[key].expiry, Elapsed(steps))
    decreases |steps|
  {
    if steps != [] {
      var next := StepOnce(db, steps[0]);
      var t := if steps[0].Elapse? then steps[0].ms else 0;
      assert Elapsed(steps) == t + Elapsed(steps[1..]);
      match steps[0] {
        case Run(c) =>
          ForeignCommandKeepsHolder(db, c, key, owner);
        case Elapse(ms) =>
          assert next[key].expiry == Later(db[key].expiry, ms);
      }
      assert Holds(next, key, owner);
      assert next[key].expiry == Later(db[key].expiry, t);
      assert Survives(next[key].expiry, Elapsed(steps[1..]));
      forall i | 0 <= i < |steps[1..]| ensures Foreign(steps[1..][i], key, owner) {
        assert steps[1..][i] == steps[i + 1];
      }
      HolderKeepsLock(next, steps[1..], key, owner);
      assert Later(Later(db[key].expiry, t), Elapsed(steps[1..])) == Later(db[key].expiry, Elapsed(steps));
    }
  }

  /** Mutual exclusion: while the holder's lease lasts and the holder itself
      sends nothing on the key, no client with another token finds the
      stored value equal to its own, whatever the others send meanwhile. */
  lemma MutualExclusion(db: Db, steps: seq<Step>, key: string, owner: string, other: string)
    requires Holds(db, key, owner) && other != owner
    requires forall i :: 0 <= i < |steps| ==> Foreign(steps[i], key, owner)
    requires Survives(db[key].expiry, Elapsed(steps))
    ensures !Holds(Replay(db, steps), key, other)
  {
    HolderKeepsLock(db, steps, key, owner);
  }

  /** Only a SETNX of the token itself makes its owner the holder: extending,
      deleting and reading never write a value, and time only removes keys.
      So two clients with different tokens can only ever hold the key one
      after the other, each through its own successful SETNX. */
  lemma {:induction false} OnlySetNXGrantsOwnership(db: Db, steps: seq<Step>, key: string, token: string)
    requires !Holds(db, key, token)
    requires forall i :: 0 <= i < |steps| ==> !Grants(steps[i], key, token)
    ensures !Holds(Replay(db, steps), key, token)
    decreases |steps|
  {
    if steps != [] {
      var next := StepOnce(db, steps[0]);
      match steps[0] {
        case Run(c) =>
          if c.key != key {
            assert key in db - {c.key} <==> key in next - {c.key};
          }
        case Elapse(ms) =>
      }
      assert !Holds(next, key, token);
      forall i | 0 <= i < |steps[1..]| ensures !Grants(steps[1..][i], key, token) {
        assert steps[1..][i] == steps[i + 1];
      }
      OnlySetNXGrantsOwnership(next, steps[1..], key, token);
    }
  }

  /** The store, shared by every client; each method is one atomic step. */
  class Store {
    var db: Db

    constructor ()
      ensures db == map[]
    {
      db := map[];
    }

    /** One round trip carrying command `c`. */
    method Send(c: Command, net: Transport) returns (r: Response)
      modifies this
      ensures db == After(old(db), c, net)
      ensures r == Seen(old(db), c, net)
    {
      var (next, reply) := Exec(db, c);
      if net != RequestLost {
        db := next;
      }
      r := if net == Delivered then Answer(reply) else NetError;
    }

    /** `ms` milliseconds pass. */
    method Advance(ms: nat)
      modifies this
      ensures db == Tick(old(db), ms)
    {
      db := Tick(db, ms);
    }

    /** A run of other clients' commands and passing time, step by step. */
    method Play(steps: seq<Step>)
      modifies this
      ensures db == Replay(old(db), steps)
    {
      for i := 0 to |steps|
        invariant Replay(db, steps[i..]) == Replay(old(db), steps)
      {
        assert steps[i..][1..] == steps[i + 1..];
        db := StepOnce(db, steps[i]);
      }
      assert steps[|steps|..] == [];
    }
  }
}
