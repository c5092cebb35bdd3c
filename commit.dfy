/** The remote steps every game's `handleComplete` runs before it merges
    its score: award the coins, award the xp, and mirror both in the
    profile store. A step the server refuses throws, and the game's
    `catch` abandons the rest of the commit. */
module Commit {
  import opened Common
  import Server
  import UserStore
  import Progress

  /** How a `handleComplete` ended: no signed-in user, a step the server
      refused or a client-side exception (both end in the error alert), or
      every step done. */
  datatype Outcome = Skipped | Failed(error: Server.ApiError) | Crashed | Saved

  /** The progress record `get_progress` answers with for a user id. */
  function Read(progress: map<string, Progress.Snapshot>, id: string): Progress.Snapshot {
    if id in progress then progress[id] else Progress.Empty
  }

  /** The server error the coin award runs into first, if any. */
  function CoinsRefusal(users: map<string, Server.User>, id: string, coins: int): Option<Server.ApiError> {
    if !Server.IsObjectId(id) then Some(Server.InvalidId)
    else if coins == 0 then Some(Server.ZeroCoins)
    else if id !in users then Some(Server.UserNotFound)
    else None
  }

  /** The user record after a coin award and an xp award. */
  function Rewarded(u: Server.User, coins: int, xp: int): Server.User {
    var g := Server.GainXp(u.xp, xp);
    u.(coins := u.coins + coins + g.bonusCoins, xp := g.newXp)
  }

  /** The user map after both awards land for `id`. */
  function RewardedAt(users: map<string, Server.User>, id: string, coins: int, xp: int): map<string, Server.User> {
    if id in users then users[id := Rewarded(users[id], coins, xp)] else users
  }

  /** The user map after `badge` is set-inserted for `id`. */
  function BadgeAt(users: map<string, Server.User>, id: string, badge: string): map<string, Server.User> {
    if id in users then users[id := users[id].(badges := SetInsert(users[id].badges, badge))] else users
  }

  /** The user map after `add_coins` for `id`: unchanged when refused. */
  function PaidAt(users: map<string, Server.User>, id: string, coins: int): map<string, Server.User> {
    if CoinsRefusal(users, id, coins).None? then users[id := users[id].(coins := users[id].coins + coins)]
    else users
  }

  /** `add_xp` accepts a positive award for a known, well-formed id. */
  predicate XpAccepted(users: map<string, Server.User>, id: string, xp: int) {
    Server.IsObjectId(id) && xp > 0 && id in users
  }

  /** The user map after `add_xp` for `id`: unchanged when refused. */
  function XpAt(users: map<string, Server.User>, id: string, xp: int): map<string, Server.User> {
    if XpAccepted(users, id, xp) then
      var u := users[id];
      var g := Server.GainXp(u.xp, xp);
      users[id := u.(xp := g.newXp, coins := u.coins + g.bonusCoins)]
    else users
  }

  /** An accepted coin award followed by an xp award is the combined
      reward. */
  lemma {:induction false} RewardedSteps(users: map<string, Server.User>, id: string, coins: int, xp: int)
    requires CoinsRefusal(users, id, coins).None? && xp > 0
    ensures XpAccepted(PaidAt(users, id, coins), id, xp)
    ensures XpAt(PaidAt(users, id, coins), id, xp) == RewardedAt(users, id, coins, xp)
  {
    var paid := PaidAt(users, id, coins);
    assert paid[id].xp == users[id].xp;
    UpdateTwice(users, id, paid[id], Rewarded(users[id], coins, xp));
  }

  /** `addCoins` then `updateCoins`: the store's coins become the balance
      the screen rendered with plus the award, or, when `fromServer`, the
      balance the server answered with. */
  method AwardCoins(api: Server.Api, store: UserStore.Store, coins: int, fromServer: bool)
    returns (r: Result<int, Server.ApiError>)
    requires api.Valid() && store.user.Some?
    modifies api, store
    ensures api.Valid() && api.progress == old(api.progress)
    ensures var id := old(store.user).value.id;
            && (CoinsRefusal(old(api.users), id, coins).Some? <==> r.Err?)
            && (r.Err? ==> r.error == CoinsRefusal(old(api.users), id, coins).value
                           && api.users == old(api.users) && store.user == old(store.user))
            && api.users == PaidAt(old(api.users), id, coins)
            && (r.Ok? ==> && id in old(api.users)
                          && r.value == old(api.users)[id].coins + coins
                          && store.user == Some(old(store.user).value.(coins := if fromServer then r.value
                                                                                 else old(store.user).value.coins + coins)))
  {
    var su := store.user.value;
    r := api.AddCoins(su.id, coins);
    if r.Ok? {
      store.UpdateCoins(if fromServer then r.value else su.coins + coins);
    }
  }

  /** `addXP` then `updateXP` with the server's answer. */
  method AwardXp(api: Server.Api, store: UserStore.Store, xp: int)
    returns (r: Result<Server.XpAnswer, Server.ApiError>)
    requires api.Valid() && store.user.Some? && xp > 0
    requires store.user.value.id in api.users && Server.IsObjectId(store.user.value.id)
    modifies api, store
    ensures api.Valid() && api.progress == old(api.progress)
    ensures var id := old(store.user).value.id;
            var u := old(api.users)[id];
            var g := Server.GainXp(u.xp, xp);
            && r == Ok(Server.XpAnswer(g.newXp, g.newLevel, g.levelUp, g.bonusCoins, u.coins + g.bonusCoins))
            && api.users == XpAt(old(api.users), id, xp)
            && store.user == Some(old(store.user).value.(xp := g.newXp, level := UserStore.Numeric(g.newLevel)))
  {
    r := api.AddXp(store.user.value.id, xp);
    store.UpdateXp(r.value.newXp, r.value.newLevel);
  }

  /** The store's copy of the profile after both awards: the coins the
      screen rendered with, or the balance the server answered with, plus
      the award (never the level-up bonus), and the server's new xp and
      level. */
  function Mirrored(u: UserStore.User, users: map<string, Server.User>, coins: int, xp: int, fromServer: bool): UserStore.User
    requires u.id in users
  {
    var g := Server.GainXp(users[u.id].xp, xp);
    u.(coins := (if fromServer then users[u.id].coins else u.coins) + coins,
       xp := g.newXp, level := UserStore.Numeric(g.newLevel))
  }

  /** `addCoins`, `updateCoins`, `addXP`, `updateXP`: once the coin award
      is accepted the xp award cannot be refused, so either both land or
      nothing changes. Neither store update includes a level-up bonus. */
  method GrantRewards(api: Server.Api, store: UserStore.Store, coins: int, xp: int, fromServer: bool)
    returns (r: Result<Server.XpAnswer, Server.ApiError>)
    requires api.Valid() && store.user.Some? && xp > 0
    modifies api, store
    ensures api.Valid() && api.progress == old(api.progress)
    ensures var id := old(store.user).value.id;
            && (CoinsRefusal(old(api.users), id, coins).Some? <==> r.Err?)
            && (r.Err? ==> r.error == CoinsRefusal(old(api.users), id, coins).value
                           && api.users == old(api.users) && store.user == old(store.user))
            && (r.Ok? ==> && id in old(api.users)
                          && api.users == RewardedAt(old(api.users), id, coins, xp)
                          && r.value.totalCoins == api.users[id].coins
                          && r.value.levelUp == Server.GainXp(old(api.users)[id].xp, xp).levelUp
                          && store.user == Some(Mirrored(old(store.user).value, old(api.users), coins, xp, fromServer))
                          && store.user.value.xp == api.users[id].xp)
  {
    ghost var id := store.user.value.id;
    ghost var u0 := store.user.value;
    ghost var users0 := api.users;
    var c := AwardCoins(api, store, coins, fromServer);
    if c.Err? {
      return Err(c.error);
    }
    assert store.user == Some(u0.(coins := (if fromServer then users0[id].coins else u0.coins) + coins));
    RewardedSteps(users0, id, coins, xp);
    r := AwardXp(api, store, xp);
    assert store.user == Some(Mirrored(u0, users0, coins, xp, fromServer));
  }

  lemma UpdateTwice<K, V>(m: map<K, V>, k: K, a: V, b: V)
    ensures m[k := a][k := b] == m[k := b]
  {
  }

  /** `unlockBadge` followed by `addBadge`: the store mirrors the badge only
      when the server accepted it. */
  method UnlockBadge(api: Server.Api, store: UserStore.Store, badge: string)
    returns (r: Result<bool, Server.ApiError>)
    requires api.Valid() && store.user.Some?
    modifies api, store
    ensures api.Valid() && api.progress == old(api.progress)
    ensures var id := old(store.user).value.id;
            r.Ok? ==> && id in old(api.users)
                      && api.users == old(api.users)[id := old(api.users)[id].(badges := SetInsert(old(api.users)[id].badges, badge))]
                      && store.user == Some(UserStore.WithBadge(old(store.user).value, badge))
    ensures var id := old(store.user).value.id;
            Server.IsObjectId(id) && badge != "" && id in old(api.users) ==> r.Ok?
    ensures r.Err? ==> api.users == old(api.users) && store.user == old(store.user)
  {
    r := api.UnlockBadge(store.user.value.id, badge);
    if r.Ok? {
      store.AddBadge(badge);
    }
  }

  /** `getProgress` followed, for a module not yet listed, by
      `updateProgress` with the module appended, its score set and the
      total raised by it; a listed module is not written. Reading creates
      the empty record when none exists. */
  method SaveFirst(api: Server.Api, id: string, key: string, score: real)
    returns (merged: Option<Progress.Snapshot>)
    requires api.Valid() && id != ""
    modifies api
    ensures api.Valid() && api.users == old(api.users)
    ensures merged == Progress.FirstCompletion(Read(old(api.progress), id), key, score)
    ensures api.progress == old(api.progress)[id := if merged.Some? then merged.value else Read(old(api.progress), id)]
  {
    var current := api.GetProgress(id);
    assert current.Ok?;
    merged := Progress.FirstCompletion(current.value, key, score);
    if merged.Some? {
      var created := api.UpdateProgress(id, merged.value);
    }
  }
}
