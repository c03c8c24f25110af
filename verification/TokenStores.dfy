/** Session tokens: one simple map from player to its current session, and the two stores that implement it,
    one with two hash maps in memory, one with scripts on a key-value server.

    Instants are whole milliseconds, time-to-live is in nanoseconds, expiries are in nanoseconds. */
module TokenStores {
  import opened Prelude

  type PlayerId = nat
  type Token = nat

  const I64_MAX := 0x7FFF_FFFF_FFFF_FFFF

  function Nanos(millis: nat): nat {
    millis * 1_000_000
  }

  function Millis(nanos: nat): nat {
    nanos / 1_000_000
  }

  // ---- The map both stores stand for ----

  datatype Session = Session(token: Token, expires: nat)

  type Sessions = map<PlayerId, Session>

  predicate Alive(expires: nat, now: nat) {
    expires > Nanos(now)
  }

  predicate Resolves(m: Sessions, token: Token, player: PlayerId, now: nat) {
    player in m && m[player].token == token && Alive(m[player].expires, now)
  }

  // ---- In memory: tokens to entries, and players to tokens ----

  datatype Entry = Entry(player: PlayerId, expires: nat)

  datatype Memory = Memory(byToken: map<Token, Entry>, byPlayer: map<PlayerId, seq<Token>>)

  function Elements(tokens: seq<Token>): set<Token> {
    set t | t in tokens
  }

  function MemoryRevoke(m: Memory, player: PlayerId): Memory {
    if player in m.byPlayer
    then Memory(m.byToken - Elements(m.byPlayer[player]), m.byPlayer - {player})
    else m
  }

  function MemoryCreate(m: Memory, player: PlayerId, token: Token, expires: nat): Memory {
    var cleared := MemoryRevoke(m, player);
    Memory(cleared.byToken[token := Entry(player, expires)], cleared.byPlayer[player := [token]])
  }

  function MemoryPrune(m: Memory, now: nat): Memory {
    m.(byToken := map t | t in m.byToken && Alive(m.byToken[t].expires, now) :: m.byToken[t])
  }

  function MemoryResolve(m: Memory, token: Token, now: nat): Option<PlayerId> {
    if token in m.byToken && Alive(m.byToken[token].expires, now) then Some(m.byToken[token].player) else None
  }

  class InMemoryTokenStore {
    var byToken: map<Token, Entry>
    var byPlayer: map<PlayerId, seq<Token>>

    ghost function Value(): Memory
      reads this
    {
      Memory(byToken, byPlayer)
    }

    constructor ()
      ensures Value() == Memory(map[], map[])
    {
      byToken, byPlayer := map[], map[];
    }

    method RevokePlayer(player: PlayerId)
      modifies this
      ensures Value() == MemoryRevoke(old(Value()), player)
    {
      if player !in byPlayer {
        return;
      }
      var tokens := byPlayer[player];
      byPlayer := byPlayer - {player};
      var i := 0;
      while i < |tokens|
        invariant 0 <= i <= |tokens|
        invariant byToken == old(byToken) - Elements(tokens[..i])
        invariant byPlayer == old(byPlayer) - {player}
      {
        byToken := byToken - {tokens[i]};
        assert tokens[..i + 1] == tokens[..i] + [tokens[i]];
        assert Elements(tokens[..i + 1]) == Elements(tokens[..i]) + {tokens[i]};
        i := i + 1;
      }
      assert tokens[..i] == tokens;
    }

    /** `token` is the random draw; `horizon` is the last instant the platform clock can represent. */
    method Create(player: PlayerId, token: Token, ttl: nat, now: nat, horizon: nat) returns (r: Option<Token>)
      modifies this
      ensures r == if Nanos(now) + ttl <= horizon then Some(token) else None
      ensures r.Some? ==> Value() == MemoryCreate(old(Value()), player, token, Nanos(now) + ttl)
      ensures r.None? ==> Value() == old(Value())
    {
      var expires := Nanos(now) + ttl;
      if expires > horizon {
        return None;
      }
      RevokePlayer(player);
      byPlayer := byPlayer[player := [token]];
      byToken := byToken[token := Entry(player, expires)];
      r := Some(token);
    }

    method Resolve(token: Token, now: nat) returns (player: Option<PlayerId>)
      ensures player == MemoryResolve(Value(), token, now)
    {
      player := None;
      if token in byToken && Alive(byToken[token].expires, now) {
        player := Some(byToken[token].player);
      }
    }

    method LiveTokens(now: nat) returns (count: nat)
      modifies this
      ensures Value() == MemoryPrune(old(Value()), now)
      ensures forall t :: t in byToken <==> t in old(byToken) && old(byToken)[t].expires > Nanos(now)
      ensures count == |byToken|
    {
      byToken := map t | t in byToken && Alive(byToken[t].expires, now) :: byToken[t];
      count := |byToken|;
    }
  }

  // ---- On the key-value server: every key carries its own expiry ----

  datatype Key = TokenKey(token: Token) | IndexKey(player: PlayerId)

  /** `Garbage` is a text that is no player id. */
  datatype Value = Text(player: PlayerId, expires: nat) | Garbage(expires: nat) | Members(tokens: set<Token>, expires: nat)

  datatype Corrupt = Corrupt

  type Database = map<Key, Value>

  predicate Visible(db: Database, key: Key, now: nat) {
    key in db && Alive(db[key].expires, now)
  }

  /** `SMEMBERS`: an absent or expired key is an empty set. */
  function SetMembers(db: Database, player: PlayerId, now: nat): set<Token> {
    if Visible(db, IndexKey(player), now) && db[IndexKey(player)].Members? then db[IndexKey(player)].tokens else {}
  }

  function RedisRevoke(db: Database, player: PlayerId, now: nat): Database {
    db - (set t | t in SetMembers(db, player, now) :: TokenKey(t)) - {IndexKey(player)}
  }

  function RedisCreate(db: Database, player: PlayerId, token: Token, expires: nat, now: nat): Database {
    RedisRevoke(db, player, now)[IndexKey(player) := Members({token}, expires)][TokenKey(token) := Text(player, expires)]
  }

  /** A key that holds no player id is an error; so is reading a set as a text. */
  function RedisResolve(db: Database, token: Token, now: nat): Result<Option<PlayerId>, Corrupt> {
    if !Visible(db, TokenKey(token), now) then Ok(None)
    else match db[TokenKey(token)]
      case Text(player, _) => Ok(Some(player))
      case _ => Err(Corrupt)
  }

  /** Milliseconds kept of a time-to-live: truncated, and never less than one. */
  function RedisTtl(ttl: nat): nat {
    var millis := Millis(ttl);
    if millis < 1 then 1 else millis
  }

  predicate RedisAccepts(ttl: nat) {
    Millis(ttl) <= I64_MAX / 2
  }

  class RedisTokenStore {
    var db: Database

    constructor ()
      ensures db == map[]
    {
      db := map[];
    }

    /** The revoking script: delete every token of the player's index, then the index. */
    method RevokeScript(player: PlayerId, now: nat)
      modifies this
      ensures db == RedisRevoke(old(db), player, now)
    {
      var left := SetMembers(db, player, now);
      ghost var all := left;
      while left != {}
        invariant left <= all
        invariant db == old(db) - (set t | t in all - left :: TokenKey(t))
        decreases left
      {
        var token :| token in left;
        assert (set t | t in all - (left - {token}) :: TokenKey(t))
            == (set t | t in all - left :: TokenKey(t)) + {TokenKey(token)};
        db := db - {TokenKey(token)};
        left := left - {token};
      }
      assert all - left == all;
      db := db - {IndexKey(player)};
    }

    method Create(player: PlayerId, token: Token, ttl: nat, now: nat) returns (r: Option<Token>)
      modifies this
      ensures r == if ttl < (0x3FFF_FFFF_FFFF_FFFF + 1) * 1_000_000 then Some(token) else None
      ensures r.Some? ==> db == RedisCreate(old(db), player, token, Nanos(now + RedisTtl(ttl)), now)
      ensures r.None? ==> db == old(db)
    {
      if Millis(ttl) > I64_MAX / 2 {
        return None;
      }
      var expires := Nanos(now + RedisTtl(ttl));
      RevokeScript(player, now);
      db := db[IndexKey(player) := Members({token}, expires)];
      db := db[TokenKey(token) := Text(player, expires)];
      r := Some(token);
    }

    method Resolve(token: Token, now: nat) returns (r: Result<Option<PlayerId>, Corrupt>)
      ensures r == RedisResolve(db, token, now)
      ensures r.Ok? && r.value.Some? <==> Visible(db, TokenKey(token), now) && db[TokenKey(token)].Text?
      ensures r.Ok? && r.value.None? <==> !Visible(db, TokenKey(token), now)
    {
      var key := TokenKey(token);
      if key !in db || !Alive(db[key].expires, now) {
        return Ok(None);
      }
      if !db[key].Text? {
        return Err(Corrupt);
      }
      r := Ok(Some(db[key].player));
    }
  }

  /** The server keeps whole milliseconds, rounded down but never less than one, and refuses none that fits half an i64. */
  lemma TtlIsTruncated(ttl: nat)
    ensures ttl < 1_000_000 ==> RedisTtl(ttl) == 1
    ensures ttl >= 1_000_000 ==> Nanos(RedisTtl(ttl)) <= ttl < Nanos(RedisTtl(ttl) + 1)
    ensures RedisAccepts(ttl) <==> ttl < (0x3FFF_FFFF_FFFF_FFFF + 1) * 1_000_000
  {
  }

  /** The server keeps a time-to-live as it is exactly if it is a positive whole number of milliseconds. */
  lemma TtlIsKeptExactlyWhen(ttl: nat)
    ensures Nanos(RedisTtl(ttl)) == ttl <==> ttl % 1_000_000 == 0 && ttl >= 1_000_000
  {
  }

  /** A time-to-live of one and a half milliseconds: after one, only the store in memory still knows the token. */
  lemma BrokenTtlDivides()
    ensures var memory := MemoryCreate(Memory(map[], map[]), 1, 7, Nanos(0) + 1_500_000);
            var db := RedisCreate(map[], 1, 7, Nanos(0 + RedisTtl(1_500_000)), 0);
            MemoryResolve(memory, 7, 1) == Some(1) && RedisResolve(db, 7, 1) == Ok(None)
  {
  }

  // ---- One history for all three ----

  /** `issued` are the tokens drawn so far, `clock` the last instant seen. */
  datatype Trio = Trio(sessions: Sessions, memory: Memory, db: Database, issued: set<Token>, clock: nat)

  const NOTHING := Trio(map[], Memory(map[], map[]), map[], {}, 0)

  datatype Op = Login(player: PlayerId, token: Token, ttl: nat) | Revoke(player: PlayerId) | Prune | Evict(key: Key) | Tick

  predicate WholeMillis(ttl: nat) {
    ttl % 1_000_000 == 0 && ttl >= 1_000_000
  }

  /** Time only moves forward, tokens are never drawn twice, and the server drops only keys that have expired. */
  predicate Possible(s: Trio, op: Op, now: nat) {
    && s.clock <= now
    && (op.Login? ==> op.token !in s.issued && WholeMillis(op.ttl) && RedisAccepts(op.ttl))
    && (op.Evict? ==> op.key in s.db && !Alive(s.db[op.key].expires, now))
  }

  /** A login: the memory keeps the expiry exactly, the server the one it rounded to. */
  function LoggedIn(s: Trio, p: PlayerId, token: Token, expires: nat, kept: nat, now: nat): Trio {
    Trio(s.sessions[p := Session(token, expires)], MemoryCreate(s.memory, p, token, expires),
         RedisCreate(s.db, p, token, kept, now), s.issued + {token}, now)
  }

  function Do(s: Trio, op: Op, now: nat): Trio {
    var t := s.(clock := now);
    match op
    case Login(p, token, ttl) => LoggedIn(s, p, token, Nanos(now) + ttl, Nanos(now + RedisTtl(ttl)), now)
    case Revoke(p) =>
      t.(sessions := s.sessions - {p}, memory := MemoryRevoke(s.memory, p), db := RedisRevoke(s.db, p, now))
    case Prune => t.(memory := MemoryPrune(s.memory, now))
    case Evict(key) => t.(db := s.db - {key})
    case Tick => t
  }

  // ---- The refinement relations ----

  /** Every entry is its player's current session; every session has its entry, unless it was pruned after expiring. */
  ghost predicate MemoryFits(m: Memory, sessions: Sessions, clock: nat) {
    && m.byPlayer.Keys == sessions.Keys
    && (forall p :: p in sessions ==> m.byPlayer[p] == [sessions[p].token])
    && (forall t :: t in m.byToken ==>
          m.byToken[t].player in sessions && sessions[m.byToken[t].player] == Session(t, m.byToken[t].expires))
    && (forall p :: p in sessions && Alive(sessions[p].expires, clock) ==>
          sessions[p].token in m.byToken && m.byToken[sessions[p].token] == Entry(p, sessions[p].expires))
  }

  /** Every unexpired key belongs to its player's current session, which has both its keys while it lives. */
  ghost predicate DatabaseFits(db: Database, sessions: Sessions, clock: nat) {
    && (forall t :: TokenKey(t) in db ==> db[TokenKey(t)].Text?)
    && (forall p :: IndexKey(p) in db ==> db[IndexKey(p)].Members?)
    && (forall t :: Visible(db, TokenKey(t), clock) ==>
          Resolves(sessions, t, db[TokenKey(t)].player, clock)
          && sessions[db[TokenKey(t)].player].expires == db[TokenKey(t)].expires)
    && (forall p :: Visible(db, IndexKey(p), clock) ==>
          p in sessions && db[IndexKey(p)] == Members({sessions[p].token}, sessions[p].expires))
    && (forall p :: p in sessions && Alive(sessions[p].expires, clock) ==>
          && TokenKey(sessions[p].token) in db && db[TokenKey(sessions[p].token)] == Text(p, sessions[p].expires)
          && IndexKey(p) in db && db[IndexKey(p)] == Members({sessions[p].token}, sessions[p].expires))
  }

  ghost predicate TrioOk(s: Trio) {
    && (forall p :: p in s.sessions ==> s.sessions[p].token in s.issued)
    && Distinct(s.sessions)
    && MemoryFits(s.memory, s.sessions, s.clock)
    && DatabaseFits(s.db, s.sessions, s.clock)
  }

  lemma LaterMemory(m: Memory, sessions: Sessions, clock: nat, now: nat)
    requires MemoryFits(m, sessions, clock) && clock <= now
    ensures MemoryFits(m, sessions, now)
  {
  }

  lemma LaterDatabase(db: Database, sessions: Sessions, clock: nat, now: nat)
    requires DatabaseFits(db, sessions, clock) && clock <= now
    ensures DatabaseFits(db, sessions, now)
  {
    forall t | Visible(db, TokenKey(t), now) ensures Visible(db, TokenKey(t), clock) {}
    forall p | Visible(db, IndexKey(p), now) ensures Visible(db, IndexKey(p), clock) {}
  }

  ghost predicate Distinct(sessions: Sessions) {
    forall p, q :: p in sessions && q in sessions && p != q ==> sessions[p].token != sessions[q].token
  }

  lemma MemoryRevokeFits(m: Memory, sessions: Sessions, p: PlayerId, now: nat)
    requires MemoryFits(m, sessions, now) && Distinct(sessions)
    ensures MemoryFits(MemoryRevoke(m, p), sessions - {p}, now)
  {
  }

  lemma MemoryCreateFits(m: Memory, sessions: Sessions, p: PlayerId, token: Token, expires: nat, now: nat)
    requires MemoryFits(m, sessions, now) && Distinct(sessions)
    requires forall q :: q in sessions ==> sessions[q].token != token
    ensures MemoryFits(MemoryCreate(m, p, token, expires), sessions[p := Session(token, expires)], now)
  {
    MemoryRevokeFits(m, sessions, p, now);
  }

  lemma DatabaseRevokeFits(db: Database, sessions: Sessions, p: PlayerId, now: nat)
    requires DatabaseFits(db, sessions, now) && Distinct(sessions)
    ensures DatabaseFits(RedisRevoke(db, p, now), sessions - {p}, now)
  {
    var db' := RedisRevoke(db, p, now);
    forall t | Visible(db', TokenKey(t), now)
      ensures Resolves(sessions - {p}, t, db'[TokenKey(t)].player, now)
    {
      assert Visible(db, TokenKey(t), now);
    }
    forall q | Visible(db', IndexKey(q), now)
      ensures Visible(db, IndexKey(q), now) && q != p
    {
    }
  }

  lemma DatabaseCreateFits(db: Database, sessions: Sessions, p: PlayerId, token: Token, expires: nat, now: nat)
    requires DatabaseFits(db, sessions, now) && Distinct(sessions)
    requires forall q :: q in sessions ==> sessions[q].token != token
    ensures DatabaseFits(RedisCreate(db, p, token, expires, now), sessions[p := Session(token, expires)], now)
  {
    DatabaseRevokeFits(db, sessions, p, now);
    var cleared, db' := RedisRevoke(db, p, now), RedisCreate(db, p, token, expires, now);
    var sessions' := sessions[p := Session(token, expires)];
    forall t | Visible(db', TokenKey(t), now)
      ensures Resolves(sessions', t, db'[TokenKey(t)].player, now)
      ensures sessions'[db'[TokenKey(t)].player].expires == db'[TokenKey(t)].expires
    {
      if t != token {
        assert Visible(cleared, TokenKey(t), now);
      }
    }
    forall q | Visible(db', IndexKey(q), now)
      ensures q in sessions' && db'[IndexKey(q)] == Members({sessions'[q].token}, sessions'[q].expires)
    {
      if q != p {
        assert Visible(cleared, IndexKey(q), now);
      }
    }
  }

  lemma DistinctAfterLogin(sessions: Sessions, p: PlayerId, session: Session)
    requires Distinct(sessions) && forall q :: q in sessions ==> sessions[q].token != session.token
    ensures Distinct(sessions[p := session])
  {
  }

  lemma MemoryLogin(m: Memory, sessions: Sessions, p: PlayerId, token: Token, expires: nat, clock: nat, now: nat)
    requires MemoryFits(m, sessions, clock) && clock <= now && Distinct(sessions)
    requires forall q :: q in sessions ==> sessions[q].token != token
    ensures MemoryFits(MemoryCreate(m, p, token, expires), sessions[p := Session(token, expires)], now)
  {
    LaterMemory(m, sessions, clock, now);
    MemoryCreateFits(m, sessions, p, token, expires, now);
  }

  lemma DatabaseLogin(db: Database, sessions: Sessions, p: PlayerId, token: Token, expires: nat, clock: nat, now: nat)
    requires DatabaseFits(db, sessions, clock) && clock <= now && Distinct(sessions)
    requires forall q :: q in sessions ==> sessions[q].token != token
    ensures DatabaseFits(RedisCreate(db, p, token, expires, now), sessions[p := Session(token, expires)], now)
  {
    LaterDatabase(db, sessions, clock, now);
    DatabaseCreateFits(db, sessions, p, token, expires, now);
  }

  lemma LoginFits(s: Trio, p: PlayerId, token: Token, expires: nat, kept: nat, now: nat)
    requires TrioOk(s) && s.clock <= now && token !in s.issued && kept == expires
    ensures TrioOk(LoggedIn(s, p, token, expires, kept, now))
  {
    MemoryLogin(s.memory, s.sessions, p, token, expires, s.clock, now);
    DatabaseLogin(s.db, s.sessions, p, token, expires, s.clock, now);
    DistinctAfterLogin(s.sessions, p, Session(token, expires));
  }

  lemma ExpiriesAgree(now: nat, ttl: nat)
    requires WholeMillis(ttl)
    ensures Nanos(now + RedisTtl(ttl)) == Nanos(now) + ttl
  {
    TtlIsKeptExactlyWhen(ttl);
  }

  lemma LoginOk(s: Trio, p: PlayerId, token: Token, ttl: nat, now: nat)
    requires TrioOk(s) && s.clock <= now && token !in s.issued && WholeMillis(ttl)
    ensures TrioOk(Do(s, Login(p, token, ttl), now))
  {
    var expires, kept := Nanos(now) + ttl, Nanos(now + RedisTtl(ttl));
    assert kept == expires by { ExpiriesAgree(now, ttl); }
    LoginFits(s, p, token, expires, kept, now);
    assert Do(s, Login(p, token, ttl), now) == LoggedIn(s, p, token, expires, kept, now);
  }

  lemma RevokeOk(s: Trio, p: PlayerId, now: nat)
    requires TrioOk(s) && Possible(s, Revoke(p), now)
    ensures TrioOk(Do(s, Revoke(p), now))
  {
    LaterMemory(s.memory, s.sessions, s.clock, now);
    LaterDatabase(s.db, s.sessions, s.clock, now);
    MemoryRevokeFits(s.memory, s.sessions, p, now);
    DatabaseRevokeFits(s.db, s.sessions, p, now);
  }

  lemma StepOk(s: Trio, op: Op, now: nat)
    requires TrioOk(s) && Possible(s, op, now)
    ensures TrioOk(Do(s, op, now))
  {
    match op {
      case Login(p, token, ttl) => LoginOk(s, p, token, ttl, now);
      case Revoke(p) => RevokeOk(s, p, now);
      case Prune =>
        LaterMemory(s.memory, s.sessions, s.clock, now);
        LaterDatabase(s.db, s.sessions, s.clock, now);
      case Evict(key) =>
        LaterMemory(s.memory, s.sessions, s.clock, now);
        LaterDatabase(s.db, s.sessions, s.clock, now);
        EvictFits(s.db, s.sessions, key, now);
      case Tick =>
        LaterMemory(s.memory, s.sessions, s.clock, now);
        LaterDatabase(s.db, s.sessions, s.clock, now);
    }
  }

  lemma EvictFits(db: Database, sessions: Sessions, key: Key, now: nat)
    requires DatabaseFits(db, sessions, now) && key in db && !Alive(db[key].expires, now)
    ensures DatabaseFits(db - {key}, sessions, now)
  {
    var db' := db - {key};
    forall t | Visible(db', TokenKey(t), now) ensures Visible(db, TokenKey(t), now) {}
    forall p | Visible(db', IndexKey(p), now) ensures Visible(db, IndexKey(p), now) {}
  }

  // ---- Runs ----

  datatype Timed = Timed(op: Op, at: nat)

  function Run(s: Trio, steps: seq<Timed>): Trio
    decreases |steps|
  {
    if steps == [] then s else Run(Do(s, steps[0].op, steps[0].at), steps[1..])
  }

  predicate AllPossible(s: Trio, steps: seq<Timed>)
    decreases |steps|
  {
    steps != [] ==> Possible(s, steps[0].op, steps[0].at) && AllPossible(Do(s, steps[0].op, steps[0].at), steps[1..])
  }

  lemma {:induction false} RunStaysOk(s: Trio, steps: seq<Timed>)
    requires TrioOk(s) && AllPossible(s, steps)
    ensures TrioOk(Run(s, steps)) && s.clock <= Run(s, steps).clock && s.issued <= Run(s, steps).issued
    decreases |steps|
  {
    if steps != [] {
      StepOk(s, steps[0].op, steps[0].at);
      RunStaysOk(Do(s, steps[0].op, steps[0].at), steps[1..]);
    }
  }

  lemma AnswersAgree(s: Trio, token: Token, player: PlayerId, now: nat)
    requires TrioOk(s) && s.clock <= now
    ensures MemoryResolve(s.memory, token, now) == Some(player) <==> Resolves(s.sessions, token, player, now)
    ensures RedisResolve(s.db, token, now) == Ok(Some(player)) <==> Resolves(s.sessions, token, player, now)
    ensures RedisResolve(s.db, token, now) == Ok(MemoryResolve(s.memory, token, now))
  {
    LaterMemory(s.memory, s.sessions, s.clock, now);
    LaterDatabase(s.db, s.sessions, s.clock, now);
    if Visible(s.db, TokenKey(token), now) {
      assert Visible(s.db, TokenKey(token), now);
      assert Resolves(s.sessions, token, s.db[TokenKey(token)].player, now);
    }
  }

  /** After any history, at any later instant, both stores answer as the map does: a token resolves to a player
      in one exactly when it does in the other, and exactly when it is the player's current unexpired token. */
  lemma StoresAgree(steps: seq<Timed>, token: Token, player: PlayerId, now: nat)
    requires AllPossible(NOTHING, steps) && Run(NOTHING, steps).clock <= now
    ensures var s := Run(NOTHING, steps);
            && (MemoryResolve(s.memory, token, now) == Some(player) <==> Resolves(s.sessions, token, player, now))
            && (RedisResolve(s.db, token, now) == Ok(Some(player)) <==> Resolves(s.sessions, token, player, now))
            && RedisResolve(s.db, token, now) == Ok(MemoryResolve(s.memory, token, now))
  {
    RunStaysOk(NOTHING, steps);
    AnswersAgree(Run(NOTHING, steps), token, player, now);
  }

  /** After any history: at most one token of a player resolves, and a token resolves to at most one player. */
  lemma OneTokenPerPlayer(steps: seq<Timed>, t1: Token, t2: Token, p1: PlayerId, p2: PlayerId, now: nat)
    requires AllPossible(NOTHING, steps) && Run(NOTHING, steps).clock <= now
    requires MemoryResolve(Run(NOTHING, steps).memory, t1, now) == Some(p1)
    requires MemoryResolve(Run(NOTHING, steps).memory, t2, now) == Some(p2)
    ensures p1 == p2 <==> t1 == t2
  {
    StoresAgree(steps, t1, p1, now);
    StoresAgree(steps, t2, p2, now);
    RunStaysOk(NOTHING, steps);
  }

  /** A login or a revocation changes nobody else's tokens. */
  lemma OthersAreUntouched(s: Trio, op: Op, now: nat, token: Token, player: PlayerId, later: nat)
    requires TrioOk(s) && Possible(s, op, now) && now <= later
    requires (op.Login? || op.Revoke?) ==> op.player != player
    ensures Resolves(Do(s, op, now).sessions, token, player, later) <==> Resolves(s.sessions, token, player, later)
  {
  }

  ghost predicate Dead(s: Trio, token: Token) {
    token in s.issued && forall p :: !Resolves(s.sessions, token, p, s.clock)
  }

  /** Of a player's session: a revocation, a new login and reaching its expiry each end it, and nothing else does. */
  lemma SessionEndsExactlyWhen(s: Trio, op: Op, now: nat, player: PlayerId)
    requires TrioOk(s) && Possible(s, op, now) && player in s.sessions
    requires Resolves(s.sessions, s.sessions[player].token, player, s.clock)
    ensures Dead(Do(s, op, now), s.sessions[player].token) <==>
            ((op.Revoke? || op.Login?) && op.player == player) || s.sessions[player].expires <= Nanos(now)
  {
    var token, next := s.sessions[player].token, Do(s, op, now);
    StepOk(s, op, now);
    if ((op.Revoke? || op.Login?) && op.player == player) || s.sessions[player].expires <= Nanos(now) {
      assert forall p :: !Resolves(next.sessions, token, p, now);
    } else {
      assert Resolves(next.sessions, token, player, now);
    }
  }

  lemma DeadStaysDeadOnce(s: Trio, op: Op, now: nat, token: Token)
    requires TrioOk(s) && Possible(s, op, now) && Dead(s, token)
    ensures Dead(Do(s, op, now), token)
  {
    var next := Do(s, op, now);
    forall p ensures !Resolves(next.sessions, token, p, now) {
      assert !Resolves(s.sessions, token, p, s.clock);
    }
  }

  /** A token that has stopped resolving never resolves again, whatever happens. */
  lemma {:induction false} DeadStaysDead(s: Trio, steps: seq<Timed>, token: Token)
    requires TrioOk(s) && AllPossible(s, steps) && Dead(s, token)
    ensures Dead(Run(s, steps), token)
    decreases |steps|
  {
    if steps != [] {
      StepOk(s, steps[0].op, steps[0].at);
      DeadStaysDeadOnce(s, steps[0].op, steps[0].at, token);
      DeadStaysDead(Do(s, steps[0].op, steps[0].at), steps[1..], token);
    }
  }
}
