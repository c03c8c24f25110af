/** Experience and levels of a player, and the repository that commits awards and logins one at a time. */
module Progression {
  import opened Prelude

  const MAX_LEVEL := 999
  const U64_MAX := 0xFFFF_FFFF_FFFF_FFFF
  const U32_MAX := 0xFFFF_FFFF

  type u32 = x: int | 0 <= x <= U32_MAX
  type u64 = x: int | 0 <= x <= U64_MAX

  datatype Standing = Standing(level: u32, exp: u64)

  function SaturatingAdd(a: u64, b: u64): u64 {
    if a + b <= U64_MAX then a + b else U64_MAX
  }

  /** Experience needed to leave a level, a hundred per level; a u32 level times 100 never saturates a u64. */
  function ExpToNext(level: u32): u64 {
    100 * level
  }

  function Settle(s: Standing): Standing
    decreases MAX_LEVEL - s.level
  {
    if s.level < MAX_LEVEL && s.exp >= ExpToNext(s.level)
    then Settle(Standing(s.level + 1, s.exp - ExpToNext(s.level)))
    else s
  }

  function Gain(s: Standing, amount: u64): Standing {
    Settle(s.(exp := SaturatingAdd(s.exp, amount)))
  }

  class Player {
    var level: u32
    var exp: u64
    var lastLogin: Option<int>

    ghost function Now(): Standing
      reads this
    {
      Standing(level, exp)
    }

    ghost function Value(): Profile
      reads this
    {
      Profile(Now(), lastLogin)
    }

    constructor ()
      ensures Now() == Standing(1, 0) && lastLogin == None
    {
      level, exp, lastLogin := 1, 0, None;
    }

    method GainExp(amount: u64) returns (newLevel: Option<u32>)
      modifies this`level, this`exp
      ensures Now() == Gain(old(Now()), amount)
      ensures newLevel == if level > old(level) then Some(level) else None
    {
      exp := SaturatingAdd(exp, amount);
      newLevel := None;
      ghost var start := Now();
      while level < MAX_LEVEL && exp >= ExpToNext(level)
        invariant Settle(Now()) == Settle(start)
        invariant level >= old(level)
        invariant newLevel == if level > old(level) then Some(level) else None
        decreases MAX_LEVEL - level
      {
        SettleStep(Now());
        exp := exp - ExpToNext(level);
        level := level + 1;
        newLevel := Some(level);
      }
    }

    method RecordLogin(at: int)
      modifies this`lastLogin
      ensures lastLogin == Some(at)
    {
      lastLogin := Some(at);
    }
  }

  lemma SettleStep(s: Standing)
    requires s.level < MAX_LEVEL && s.exp >= ExpToNext(s.level)
    ensures Settle(s) == Settle(Standing(s.level + 1, s.exp - ExpToNext(s.level)))
  {
  }

  // ---- What a settled standing is ----

  /** All the experience it takes to reach a level from level one. */
  function Worth(level: int): int {
    50 * level * (level - 1)
  }

  function Total(s: Standing): int {
    Worth(s.level) + s.exp
  }

  /** Nothing more to settle. */
  predicate Normal(s: Standing) {
    s.exp < ExpToNext(s.level) || s.level >= MAX_LEVEL
  }

  lemma WorthStep(level: int)
    ensures Worth(level + 1) == Worth(level) + 100 * level
  {
  }

  lemma {:induction false} WorthGrows(low: int, high: int)
    requires 0 <= low <= high
    ensures Worth(low) <= Worth(high)
    decreases high - low
  {
    if low < high {
      WorthGrows(low, high - 1);
      WorthStep(high - 1);
    }
  }

  /** Settling conserves the total, ends in normal form, never lowers the level and stops at the top level. */
  lemma {:induction false} SettleConserves(s: Standing)
    ensures Total(Settle(s)) == Total(s)
    ensures Normal(Settle(s))
    ensures s.level <= Settle(s).level && Settle(s).exp <= s.exp
    ensures s.level <= MAX_LEVEL ==> Settle(s).level <= MAX_LEVEL
    ensures s.level >= MAX_LEVEL ==> Settle(s) == s
    decreases MAX_LEVEL - s.level
  {
    if s.level < MAX_LEVEL && s.exp >= ExpToNext(s.level) {
      WorthStep(s.level);
      SettleConserves(Standing(s.level + 1, s.exp - ExpToNext(s.level)));
    }
  }

  /** Up to the top level, a total has one normal form only. */
  lemma NormalFormIsUnique(a: Standing, b: Standing)
    requires Normal(a) && Normal(b) && a.level <= MAX_LEVEL && b.level <= MAX_LEVEL && Total(a) == Total(b)
    ensures a == b
  {
    if a.level < b.level {
      WorthStep(a.level);
      WorthGrows(a.level + 1, b.level);
    } else if b.level < a.level {
      WorthStep(b.level);
      WorthGrows(b.level + 1, a.level);
    }
  }

  /** A gain is the one normal standing worth what was there plus what was credited that lies between the old level and
      the top level; a player already above the top level stays where it is. */
  lemma GainIsExact(s: Standing, amount: u64, after: Standing)
    ensures after == Gain(s, amount) <==>
      && s.level <= after.level && (after.level <= MAX_LEVEL || after.level == s.level) && Normal(after)
      && Total(after) == Total(s) + (SaturatingAdd(s.exp, amount) - s.exp)
  {
    SettleConserves(s.(exp := SaturatingAdd(s.exp, amount)));
    if after.level <= MAX_LEVEL && s.level <= MAX_LEVEL && Normal(after) && Total(after) == Total(Gain(s, amount)) {
      NormalFormIsUnique(after, Gain(s, amount));
    }
  }

  /** Above the top level nothing settles any more: experience only piles up. */
  lemma GainAtTheTop(s: Standing, amount: u64)
    requires s.level >= MAX_LEVEL
    ensures Gain(s, amount) == s.(exp := SaturatingAdd(s.exp, amount))
  {
  }

  // ---- Two gains and one ----

  /** The first gain consumes experience for a level. */
  predicate LevelsUp(s: Standing, a: u64) {
    s.level < MAX_LEVEL && SaturatingAdd(s.exp, a) >= ExpToNext(if s.level == 0 then 1 else s.level)
  }

  lemma {:induction false} SettleOnlySpends(s: Standing)
    ensures Settle(s).exp <= s.exp
    decreases MAX_LEVEL - s.level
  {
    if s.level < MAX_LEVEL && s.exp >= ExpToNext(s.level) {
      SettleOnlySpends(Standing(s.level + 1, s.exp - ExpToNext(s.level)));
    }
  }

  lemma {:induction false} SpendsIff(s: Standing)
    ensures Settle(s).exp < s.exp <==> s.level < MAX_LEVEL && s.exp >= ExpToNext(if s.level == 0 then 1 else s.level)
    decreases MAX_LEVEL - s.level
  {
    if s.level < MAX_LEVEL && s.exp >= ExpToNext(s.level) {
      var next := Standing(s.level + 1, s.exp - ExpToNext(s.level));
      assert Settle(s) == Settle(next);
      SettleOnlySpends(next);
      if s.level == 0 {
        SpendsIff(next);
      }
    }
  }

  lemma ConsumesIff(s: Standing, a: u64)
    ensures LevelsUp(s, a) <==> Gain(s, a).exp < SaturatingAdd(s.exp, a)
  {
    SpendsIff(s.(exp := SaturatingAdd(s.exp, a)));
  }

  /** Gaining a and then b is gaining a+b, exactly if nothing saturates, or the first gain pays for no level,
      or the second gain is nothing. */
  lemma GainsAddUpExactlyWhen(s: Standing, a: u64, b: u64)
    requires a + b <= U64_MAX
    ensures Gain(Gain(s, a), b) == Gain(s, a + b) <==> s.exp + a + b <= U64_MAX || !LevelsUp(s, a) || b == 0
  {
    var mid := Gain(s, a);
    ConsumesIff(s, a);
    SettleConserves(s.(exp := SaturatingAdd(s.exp, a)));
    SettleConserves(mid.(exp := SaturatingAdd(mid.exp, b)));
    SettleConserves(s.(exp := SaturatingAdd(s.exp, a + b)));
    if s.level >= MAX_LEVEL {
      GainAtTheTop(s, a);
    } else {
      if Total(Gain(mid, b)) == Total(Gain(s, a + b)) {
        NormalFormIsUnique(Gain(mid, b), Gain(s, a + b));
      }
    }
  }

  /** At level one with all the experience a u64 holds, two gains of one are not one gain of two: the first gain is
      swallowed and pays for levels, which makes room for the second. */
  lemma SaturatedGainsDoNotAddUp()
    ensures Gain(Gain(Standing(1, U64_MAX), 1), 1) != Gain(Standing(1, U64_MAX), 2)
  {
    GainsAddUpExactlyWhen(Standing(1, U64_MAX), 1, 1);
  }

  lemma GainsAddUp(s: Standing, a: u64, b: u64)
    requires s.exp + a + b <= U64_MAX
    ensures Gain(Gain(s, a), b) == Gain(s, a + b)
  {
    GainsAddUpExactlyWhen(s, a, b);
  }

  // ---- The repository: awards and logins committed in some order ----

  type PlayerId = nat

  datatype Profile = Profile(standing: Standing, lastLogin: Option<int>)

  datatype Commit = Award(amount: u64) | Login(at: int)

  function Apply(p: Profile, c: Commit): Profile {
    match c
    case Award(amount) => p.(standing := Gain(p.standing, amount))
    case Login(at) => p.(lastLogin := Some(at))
  }

  /** What an award reports: the new level, if it rose. */
  function Reported(p: Profile, c: Commit): Option<u32> {
    if c.Award? && Gain(p.standing, c.amount).level > p.standing.level then Some(Gain(p.standing, c.amount).level) else None
  }

  function ApplyAll(p: Profile, cs: seq<Commit>): Profile
    decreases |cs|
  {
    if cs == [] then p else Apply(ApplyAll(p, cs[..|cs| - 1]), cs[|cs| - 1])
  }

  function Awarded(cs: seq<Commit>): nat
    decreases |cs|
  {
    if cs == [] then 0 else Awarded(cs[..|cs| - 1]) + if cs[|cs| - 1].Award? then cs[|cs| - 1].amount else 0
  }

  function LastLogin(before: Option<int>, cs: seq<Commit>): Option<int>
    decreases |cs|
  {
    if cs == [] then before
    else if cs[|cs| - 1].Login? then Some(cs[|cs| - 1].at)
    else LastLogin(before, cs[..|cs| - 1])
  }

  /** The levels reported, in commit order. */
  function Reports(p: Profile, cs: seq<Commit>): seq<u32>
    decreases |cs|
  {
    if cs == [] then []
    else
      var front := cs[..|cs| - 1];
      var r := Reported(ApplyAll(p, front), cs[|cs| - 1]);
      Reports(p, front) + if r.Some? then [r.value] else []
  }

  predicate HasAward(cs: seq<Commit>) {
    exists i :: 0 <= i < |cs| && cs[i].Award?
  }

  /** Any mix of awards and logins, with no saturation, ends like one award of the sum and the last login. */
  lemma {:induction false} CommitsAddUp(p: Profile, cs: seq<Commit>)
    requires p.standing.exp + Awarded(cs) <= U64_MAX
    ensures ApplyAll(p, cs).standing == if HasAward(cs) then Gain(p.standing, Awarded(cs)) else p.standing
    ensures !HasAward(cs) ==> Awarded(cs) == 0
    ensures ApplyAll(p, cs).lastLogin == LastLogin(p.lastLogin, cs)
    decreases |cs|
  {
    if cs != [] {
      var front, last := cs[..|cs| - 1], cs[|cs| - 1];
      CommitsAddUp(p, front);
      if HasAward(front) {
        var i :| 0 <= i < |front| && front[i].Award?;
        assert cs[i].Award?;
      }
      if last.Award? {
        GainsAddUp(p.standing, Awarded(front), last.amount);
      }
    }
  }

  lemma ReportedLevel(p: Profile, c: Commit)
    ensures p.standing.level <= Apply(p, c).standing.level
    ensures Reported(p, c).Some? ==> Reported(p, c).value == Apply(p, c).standing.level > p.standing.level
    ensures Reported(p, c).None? ==> Apply(p, c).standing.level == p.standing.level
  {
    if c.Award? {
      SettleConserves(p.standing.(exp := SaturatingAdd(p.standing.exp, c.amount)));
    }
  }

  /** The levels reported strictly increase in commit order; the last one is the stored level, and if none was
      reported the level is what it was. Saturated or not. */
  lemma {:induction false} ReportsIncrease(p: Profile, cs: seq<Commit>)
    ensures var rs := Reports(p, cs);
            && (forall i, j :: 0 <= i < j < |rs| ==> rs[i] < rs[j])
            && (forall i :: 0 <= i < |rs| ==> p.standing.level < rs[i] <= ApplyAll(p, cs).standing.level)
            && ApplyAll(p, cs).standing.level == if rs == [] then p.standing.level else rs[|rs| - 1]
    decreases |cs|
  {
    if cs != [] {
      var front := cs[..|cs| - 1];
      ReportsIncrease(p, front);
      ReportedLevel(ApplyAll(p, front), cs[|cs| - 1]);
    }
  }

  // ---- Many players behind one lock ----

  datatype Entry = Entry(id: PlayerId, commit: Commit)

  function Store(players: map<PlayerId, Profile>, e: Entry): map<PlayerId, Profile> {
    if e.id in players then players[e.id := Apply(players[e.id], e.commit)] else players
  }

  function StoreAll(players: map<PlayerId, Profile>, es: seq<Entry>): map<PlayerId, Profile>
    decreases |es|
  {
    if es == [] then players else Store(StoreAll(players, es[..|es| - 1]), es[|es| - 1])
  }

  function CommitsOf(es: seq<Entry>, id: PlayerId): seq<Commit>
    decreases |es|
  {
    if es == [] then []
    else
      var front := CommitsOf(es[..|es| - 1], id);
      if es[|es| - 1].id == id then front + [es[|es| - 1].commit] else front
  }

  /** Whatever the interleaving, a player ends up where its own commits take it, and nobody appears or vanishes. */
  lemma {:induction false} PlayersAreIndependent(players: map<PlayerId, Profile>, es: seq<Entry>, id: PlayerId)
    ensures id in StoreAll(players, es) <==> id in players
    ensures id in players ==> StoreAll(players, es)[id] == ApplyAll(players[id], CommitsOf(es, id))
    decreases |es|
  {
    if es != [] {
      var front, last := es[..|es| - 1], es[|es| - 1];
      PlayersAreIndependent(players, front, id);
      PlayersAreIndependent(players, front, last.id);
      if last.id == id {
        var all := CommitsOf(es, id);
        assert all[..|all| - 1] == CommitsOf(front, id);
      }
    }
  }

  datatype AppError = Validation | NotFound | PostCommit

  class PlayerRepository {
    var players: map<PlayerId, Player>

    constructor ()
      ensures players == map[]
    {
      players := map[];
    }

    /** Every player has an object of its own. */
    ghost predicate Valid()
      reads this
    {
      forall a, b :: a in players && b in players && a != b ==> players[a] != players[b]
    }

    ghost function Value(): map<PlayerId, Profile>
      reads this, players.Values
    {
      map id | id in players :: players[id].Value()
    }

    method GainExp(id: PlayerId, amount: u64) returns (r: Option<(Profile, Option<u32>)>)
      requires Valid()
      modifies players.Values
      ensures Valid() && players == old(players) && Value() == Store(old(Value()), Entry(id, Award(amount)))
      ensures r == if id in players then Some((Value()[id], Reported(old(Value())[id], Award(amount)))) else None
    {
      if id !in players {
        return None;
      }
      var player := players[id];
      var level := player.GainExp(amount);
      r := Some((Profile(Standing(player.level, player.exp), player.lastLogin), level));
    }

    method RecordLogin(id: PlayerId, at: int) returns (r: Option<Profile>)
      requires Valid()
      modifies players.Values
      ensures Valid() && players == old(players) && Value() == Store(old(Value()), Entry(id, Login(at)))
      ensures r == if id in players then Some(Value()[id]) else None
    {
      if id !in players {
        return None;
      }
      var player := players[id];
      player.RecordLogin(at);
      r := Some(Profile(Standing(player.level, player.exp), player.lastLogin));
    }
  }

  class GainExpUseCase {
    const repository: PlayerRepository
    var published: seq<(PlayerId, u32)>

    constructor (repository: PlayerRepository)
      ensures this.repository == repository && published == []
    {
      this.repository := repository;
      published := [];
    }

    /** Commit, then publish; `publishes` says whether the publisher accepts the event. A refusal is reported
        as having happened after the commit, and the commit stands. */
    method Execute(id: PlayerId, amount: u64, publishes: bool) returns (r: Result<Profile, AppError>)
      requires repository.Valid()
      modifies this`published, repository.players.Values
      ensures repository.Valid() && repository.players == old(repository.players)
      ensures amount == 0 ==> r == Err(Validation) && repository.Value() == old(repository.Value()) && published == old(published)
      ensures amount > 0 ==> repository.Value() == Store(old(repository.Value()), Entry(id, Award(amount)))
      ensures amount > 0 && id !in repository.players ==> r == Err(NotFound) && published == old(published)
      ensures amount > 0 && id in repository.players ==>
        var level := Reported(old(repository.Value())[id], Award(amount));
        && r == (if level.Some? && !publishes then Err(PostCommit) else Ok(repository.Value()[id]))
        && published == old(published) + (if level.Some? && publishes then [(id, level.value)] else [])
    {
      if amount == 0 {
        return Err(Validation);
      }
      var gained := repository.GainExp(id, amount);
      if gained.None? {
        return Err(NotFound);
      }
      var (profile, level) := gained.value;
      if level.Some? {
        if !publishes {
          return Err(PostCommit);
        }
        published := published + [(id, level.value)];
      }
      r := Ok(profile);
    }
  }
}
