/** "¡Reconoce las Monedas!": five rounds, each asking for a coin value
    among the four coins, never the same coin twice in a row. */
module Coins {
  import opened Common
  import Shuffle
  import Server
  import UserStore
  import Progress
  import Commit

  datatype Coin = Coin(id: string, value: nat, name: string)

  const AllCoins: seq<Coin> := [
    Coin("1", 1, "1 Moneda"), Coin("5", 5, "5 Monedas"),
    Coin("10", 10, "10 Monedas"), Coin("20", 20, "20 Monedas")
  ]

  const TotalRounds: nat := 5
  const ModuleKey := "coin_recognition"
  const FirstModule := "first_module"
  const CoinsEarned := 20
  const XpEarned := 50

  /** The id `startGame` passes so that any first coin is accepted. */
  const DummyId := "initial_dummy_id"

  lemma CoinsDistinct()
    ensures |AllCoins| == 4 && NoDup(AllCoins)
    ensures forall k | 0 <= k < |AllCoins| :: AllCoins[k].id != DummyId
  {
  }

  /** Random coin draws: each a position in the coin list, and at least one
      of them names a coin other than `prev` (the re-draw loop ends with
      probability one; the model takes a finite list that ends it). */
  predicate ValidCoinDraws(draws: seq<nat>, prev: string) {
    InRange(draws) && DrawsOther(draws, prev)
  }

  /** Every draw is a position in the coin list. */
  predicate InRange(draws: seq<nat>) {
    forall k | 0 <= k < |draws| :: draws[k] < |AllCoins|
  }

  /** Some draw names a coin other than `prev`. */
  predicate DrawsOther(draws: seq<nat>, prev: string)
    requires InRange(draws)
  {
    exists k | 0 <= k < |draws| :: AllCoins[draws[k]].id != prev
  }

  /** The draw-and-redraw loop of `generateNewRoundCoin`: the first drawn
      coin whose id differs from the previous one. */
  method DrawCoin(prev: string, draws: seq<nat>) returns (coin: Coin, used: nat)
    requires ValidCoinDraws(draws, prev)
    ensures used < |draws| && coin == AllCoins[draws[used]]
    ensures coin.id != prev && IsCoin(coin)
    ensures forall k | 0 <= k < used :: AllCoins[draws[k]].id == prev
  {
    used := 0;
    coin := AllCoins[draws[0]];
    while coin.id == prev && |AllCoins| > 1
      invariant used < |draws| && coin == AllCoins[draws[used]]
      invariant forall k | 0 <= k < used :: AllCoins[draws[k]].id == prev
      decreases |draws| - used
    {
      var w :| 0 <= w < |draws| && AllCoins[draws[w]].id != prev;
      assert w > used;
      used := used + 1;
      coin := AllCoins[draws[used]];
    }
  }

  /** One of the four coins. */
  predicate IsCoin(c: Coin) {
    c in AllCoins
  }

  /** The options are the four coins in some order. */
  predicate IsOrder(options: seq<Coin>) {
    multiset(options) == multiset(AllCoins)
  }

  /** A round: its target coin and the option order. */
  method NewRound(prev: string, coinDraws: seq<nat>, orderDraws: seq<nat>) returns (target: Coin, options: seq<Coin>)
    requires ValidCoinDraws(coinDraws, prev) && Shuffle.ValidDraws(orderDraws, |AllCoins|)
    ensures IsCoin(target) && target.id != prev
    ensures IsOrder(options)
  {
    var used;
    target, used := DrawCoin(prev, coinDraws);
    options := Shuffle.Shuffle(AllCoins, orderDraws);
  }

  /** No badge, or the badge list is missing (`user.badges.includes` then
      throws). */
  predicate LacksBadge(badges: Option<seq<string>>, badge: string) {
    badges.Some? && badge !in badges.value
  }

  /** The `first_module` step of `handleComplete`: `user.badges.includes`
      throws when the rendered profile has no badge list; otherwise the
      badge is unlocked when missing there, and a refused unlock is
      swallowed. */
  method AwardFirstModule(api: Server.Api, store: UserStore.Store, badges: Option<seq<string>>)
    returns (crashed: bool)
    requires api.Valid() && store.user.Some?
    modifies api, store
    ensures api.Valid() && api.progress == old(api.progress)
    ensures crashed <==> badges.None?
    ensures store.user.Some? && store.user.value.id == old(store.user).value.id
    ensures !LacksBadge(badges, FirstModule) ==> api.users == old(api.users) && store.user == old(store.user)
    ensures var id := old(store.user).value.id;
            LacksBadge(badges, FirstModule) && Server.IsObjectId(id) && id in old(api.users) ==>
              api.users == old(api.users)[id := old(api.users)[id].(badges := SetInsert(old(api.users)[id].badges, FirstModule))]
              && store.user == Some(UserStore.WithBadge(old(store.user).value, FirstModule))
    ensures var id := old(store.user).value.id;
            !(Server.IsObjectId(id) && id in old(api.users)) ==> api.users == old(api.users) && store.user == old(store.user)
  {
    if badges.None? {
      return true;
    }
    if FirstModule !in badges.value {
      var unlocked := Commit.UnlockBadge(api, store, FirstModule);
    }
    crashed := false;
  }

  /** Writes the merged record only when the merge changed it. */
  method SaveIfChanged(api: Server.Api, id: string, merge: Progress.Merge)
    modifies api
    ensures api.users == old(api.users)
    ensures merge.changed ==> api.progress == old(api.progress)[id := merge.snapshot]
    ensures !merge.changed ==> api.progress == old(api.progress)
  {
    if merge.changed {
      var created := api.UpdateProgress(id, merge.snapshot);
    }
  }

  /** The part of `handleComplete` after the awards: read the record, merge
      the score with best score wins, run the `first_module` step when the
      module is the first one ever completed, and write the record only when
      the merge changed it. `crashed` is the exception of the badge step. */
  method SaveBest(api: Server.Api, store: UserStore.Store, id: string, badges: Option<seq<string>>, score: real)
    returns (crashed: bool)
    requires api.Valid() && store.user.Some? && store.user.value.id == id
    requires Server.IsObjectId(id) && id in api.users
    modifies api, store
    ensures api.Valid()
    ensures var before := Commit.Read(old(api.progress), id);
            var merge := Progress.BestScore(before, ModuleKey, score);
            var due := ModuleKey !in before.completed && |before.completed| == 0;
            var award := due && LacksBadge(badges, FirstModule);
            var u := old(api.users)[id];
            && (crashed <==> due && badges.None?)
            && (crashed ==> api.users == old(api.users) && api.progress == old(api.progress)[id := before])
            && (!crashed ==> api.progress == old(api.progress)[id := merge.snapshot]
                             && api.users == old(api.users)[id := u.(badges := if award then SetInsert(u.badges, FirstModule)
                                                                                     else u.badges)])
            && store.user == (if !crashed && award then Some(UserStore.WithBadge(old(store.user).value, FirstModule))
                              else old(store.user))
  {
    var current := api.GetProgress(id);
    assert current.Ok?;
    assert current.value == Commit.Read(old(api.progress), id);
    assert api.progress == old(api.progress)[id := current.value];
    var merge := Progress.BestScore(current.value, ModuleKey, score);
    assert !merge.changed ==> merge.snapshot == current.value;
    if ModuleKey !in current.value.completed && |merge.snapshot.completed| == 1 {
      crashed := AwardFirstModule(api, store, badges);
      if crashed {
        return;
      }
    }
    crashed := false;
    SaveIfChanged(api, id, merge);
  }

  class Game {
    var phase: Phase
    /** `roundRef`: the round being played, 1-based. */
    var round: nat
    var correct: nat
    var target: Coin
    var options: seq<Coin>
    var locked: bool
    var loading: bool
    /** `nextTimerRef` holds a scheduled advance. */
    var pending: bool
    var mounted: bool

    /** The round stays within 1..5, every answered round is counted at
        most once as correct, and an advance is pending exactly while the
        input is locked during play. */
    ghost predicate Valid()
      reads this
    {
      && 1 <= round <= TotalRounds
      && IsCoin(target)
      && IsOrder(options)
      && (pending ==> phase == Playing && locked && mounted)
      && (phase == Playing && mounted ==> (locked <==> pending))
      && (phase == Playing ==> correct <= round - (if locked then 0 else 1))
      && (phase == Summary ==> correct <= TotalRounds)
    }

    constructor(orderDraws: seq<nat>)
      requires Shuffle.ValidDraws(orderDraws, |AllCoins|)
      ensures Valid() && mounted && phase == Intro && round == 1 && correct == 0
      ensures !locked && !pending && !loading
    {
      phase := Intro;
      round := 1;
      correct := 0;
      target := AllCoins[0];
      locked := false;
      loading := false;
      pending := false;
      mounted := true;
      var shuffled := Shuffle.Shuffle(AllCoins, orderDraws);
      options := shuffled;
    }

    /** `startGame`, offered on the intro screen: round 1, no correct
        answers, input open, a first target and option order. */
    method StartGame(coinDraws: seq<nat>, orderDraws: seq<nat>)
      requires Valid() && mounted && phase == Intro
      requires ValidCoinDraws(coinDraws, DummyId) && Shuffle.ValidDraws(orderDraws, |AllCoins|)
      modifies this
      ensures Valid() && mounted && phase == Playing
      ensures round == 1 && correct == 0 && !locked && !pending
    {
      round := 1;
      correct := 0;
      locked := false;
      target, options := NewRound(DummyId, coinDraws, orderDraws);
      phase := Playing;
    }

    /** `handleCoinSelect`: ignored while saving, outside play or while
        locked; otherwise it locks the input, counts a right answer when
        the values match, and schedules the advance. */
    method HandleCoinSelect(selected: Coin)
      requires Valid() && mounted
      modifies this
      ensures Valid()
      ensures old(loading) || old(phase) != Playing || old(locked) ==> unchanged(this)
      ensures !old(loading) && old(phase) == Playing && !old(locked) ==>
                && locked && pending && phase == Playing && round == old(round) && target == old(target)
                && correct == old(correct) + (if selected.value == old(target).value then 1 else 0)
    {
      if loading || phase != Playing || locked {
        return;
      }
      locked := true;
      if selected.value == target.value {
        correct := correct + 1;
      }
      pending := true;
    }

    /** The timer firing: the pending slot is emptied and
        `advanceToNextAction` runs (a pending timer implies a mounted
        screen, since unmounting clears it). After round 5 it shows the
        summary; otherwise the next round gets a target other than the
        current one. The input is released either way. */
    method Fire(coinDraws: seq<nat>, orderDraws: seq<nat>)
      requires Valid() && pending
      requires ValidCoinDraws(coinDraws, target.id) && Shuffle.ValidDraws(orderDraws, |AllCoins|)
      modifies this
      ensures Valid() && mounted && !pending && !locked && correct == old(correct)
      ensures old(round) + 1 > TotalRounds ==> phase == Summary && round == old(round)
      ensures old(round) + 1 <= TotalRounds ==> phase == Playing && round == old(round) + 1
                                                && target.id != old(target).id
    {
      pending := false;
      var next := round + 1;
      if next > TotalRounds {
        locked := false;
        phase := Summary;
        return;
      }
      round := next;
      target, options := NewRound(target.id, coinDraws, orderDraws);
      locked := false;
    }

    /** Unmount: the clean-up marks the screen gone and clears the timer. */
    method Unmount()
      requires Valid()
      modifies this
      ensures Valid() && !mounted && !pending
      ensures phase == old(phase) && round == old(round) && correct == old(correct)
    {
      mounted := false;
      pending := false;
    }

    function Score(): nat
      reads this
    {
      RoundPercent(correct, TotalRounds)
    }

    /** `handleComplete`, offered on the summary screen: award 20 coins and
        50 xp, merge the percentage with best score wins, unlock
        `first_module` (failures ignored) when this is the first module
        ever completed and the profile lacks it, and write the progress only
        when the merge changed it. */
    method Complete(api: Server.Api, store: UserStore.Store) returns (outcome: Commit.Outcome)
      requires Valid() && phase == Summary && api.Valid() && !loading
      modifies this, api, store
      ensures Valid() && phase == old(phase) && correct == old(correct) && !pending && !loading
      ensures api.Valid()
      ensures old(store.user).None? ==> outcome == Commit.Skipped && api.users == old(api.users)
                                        && api.progress == old(api.progress) && store.user == old(store.user)
      ensures old(store.user).Some? ==>
                var id := old(store.user).value.id;
                && (Commit.CoinsRefusal(old(api.users), id, CoinsEarned).Some? <==> outcome.Failed?)
                && (outcome.Failed? ==> api.users == old(api.users) && api.progress == old(api.progress)
                                        && store.user == old(store.user))
                && (outcome.Crashed? <==> !outcome.Failed? && Due(Commit.Read(old(api.progress), id))
                                          && old(store.user).value.badges.None?)
                && (!outcome.Failed? ==> Committed(old(store.user).value, old(api.users), old(api.progress), Score(),
                                                    outcome.Crashed?, store.user, api.users, api.progress))
    {
      loading := true;
      outcome := CommitRun(api, store, Score());
      loading := false;
    }
  }

  /** The module is the first one ever completed. */
  predicate Due(before: Progress.Snapshot) {
    ModuleKey !in before.completed && |before.completed| == 0
  }

  /** The state a commit that got past the awards leaves, for the profile
      `user0` the screen rendered with: the rewards, then either the crash of
      the badge step with the record only read, or the best-score merge and
      the badge when it was due and missing from that profile, on the server
      and mirrored in the store. */
  ghost predicate Committed(user0: UserStore.User, users0: map<string, Server.User>, progress0: map<string, Progress.Snapshot>,
                            score: nat, crashed: bool, user: Option<UserStore.User>,
                            users: map<string, Server.User>, progress: map<string, Progress.Snapshot>)
  {
    var id := user0.id;
    var badges := user0.badges;
    var before := Commit.Read(progress0, id);
    var merge := Progress.BestScore(before, ModuleKey, score as real);
    var award := Due(before) && LacksBadge(badges, FirstModule);
    var rewarded := Commit.RewardedAt(users0, id, CoinsEarned, XpEarned);
    && id in users0 && id in rewarded
    && (crashed ==> users == rewarded && progress == progress0[id := before])
    && (!crashed ==> && users == rewarded[id := rewarded[id].(badges := if award then SetInsert(rewarded[id].badges, FirstModule)
                                                                       else rewarded[id].badges)]
                     && progress == progress0[id := merge.snapshot])
    && (var mirrored := Commit.Mirrored(user0, users0, CoinsEarned, XpEarned, false);
        user == Some(if !crashed && award then UserStore.WithBadge(mirrored, FirstModule) else mirrored))
  }

  /** The commit of `handleComplete` for the run's percentage. */
  method CommitRun(api: Server.Api, store: UserStore.Store, score: nat) returns (outcome: Commit.Outcome)
    requires api.Valid()
    modifies api, store
    ensures api.Valid()
    ensures old(store.user).None? ==> outcome == Commit.Skipped && api.users == old(api.users)
                                      && api.progress == old(api.progress) && store.user == old(store.user)
    ensures old(store.user).Some? ==>
              var id := old(store.user).value.id;
              && (Commit.CoinsRefusal(old(api.users), id, CoinsEarned).Some? <==> outcome.Failed?)
              && (outcome.Failed? ==> api.users == old(api.users) && api.progress == old(api.progress)
                                      && store.user == old(store.user))
              && (outcome.Crashed? <==> !outcome.Failed? && Due(Commit.Read(old(api.progress), id))
                                        && old(store.user).value.badges.None?)
              && (!outcome.Failed? ==> Committed(old(store.user).value, old(api.users), old(api.progress), score,
                                                    outcome.Crashed?, store.user, api.users, api.progress))
  {
    if store.user.None? {
      return Commit.Skipped;
    }
    var user := store.user.value;
    var rewards := Commit.GrantRewards(api, store, CoinsEarned, XpEarned, false);
    if rewards.Err? {
      return Commit.Failed(rewards.error);
    }
    var crashed := SaveBest(api, store, user.id, user.badges, score as real);
    outcome := if crashed then Commit.Crashed else Commit.Saved;
  }
}
