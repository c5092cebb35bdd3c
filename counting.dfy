/** "Contar Dinero": eight rounds, each showing two piles of one to five
    coins and three candidate totals. */
module Counting {
  import opened Common
  import Shuffle
  import Server
  import UserStore
  import Progress
  import Commit

  const TotalRounds: nat := 8
  const ModuleKey := "counting_money"
  const CoinsEarned := 25
  const XpEarned := 65

  datatype Round = Round(coin1: nat, coin2: nat, total: nat, options: seq<nat>)

  /** What `makeRound` promises: one to five coins per pile, their sum,
      and three distinct options from 1 to 10 among which is the sum. */
  predicate WellFormed(r: Round) {
    && 1 <= r.coin1 <= 5 && 1 <= r.coin2 <= 5
    && r.total == r.coin1 + r.coin2
    && |r.options| == 3 && NoDup(r.options)
    && r.total in r.options
    && forall k | 0 <= k < |r.options| :: 1 <= r.options[k] <= 10
  }

  /** The values the option loop keeps from a list of draws, starting from
      the ones already kept: a draw not yet kept is added until three are
      kept. */
  function Collect(kept: seq<nat>, draws: seq<nat>): seq<nat>
    decreases |draws|
  {
    if draws == [] || |kept| >= 3 then kept
    else Collect(if draws[0] in kept then kept else kept + [draws[0]], draws[1..])
  }

  /** Random option draws, each `Math.floor(Math.random() * 10) + 1`, that
      do bring the set to three values (the loop ends with probability one;
      the model takes a finite list that ends it). */
  predicate ValidOptionDraws(total: nat, draws: seq<nat>) {
    && (forall k | 0 <= k < |draws| :: 1 <= draws[k] <= 10)
    && |Collect([total], draws)| == 3
  }

  /** Collecting from a short, duplicate-free list keeps it duplicate-free,
      keeps it as a prefix, and adds only drawn values. */
  lemma {:induction false} CollectFacts(kept: seq<nat>, draws: seq<nat>)
    requires NoDup(kept) && |kept| <= 3
    ensures NoDup(Collect(kept, draws)) && |Collect(kept, draws)| <= 3
    ensures |kept| <= |Collect(kept, draws)| && Collect(kept, draws)[..|kept|] == kept
    ensures forall k | |kept| <= k < |Collect(kept, draws)| :: Collect(kept, draws)[k] in draws
    decreases |draws|
  {
    if draws != [] && |kept| < 3 {
      var next := if draws[0] in kept then kept else kept + [draws[0]];
      CollectFacts(next, draws[1..]);
      var r := Collect(next, draws[1..]);
      assert r[..|kept|] == next[..|kept|] == kept;
      forall k | |kept| <= k < |r|
        ensures r[k] in draws
      {
        if k < |next| {
          assert r[k] == next[k] == draws[0];
        } else {
          assert r[k] in draws[1..];
        }
      }
    }
  }

  /** The option loop of `makeRound`: starting from the total, add each
      draw not yet kept until three values are kept. */
  method CollectOptions(total: nat, draws: seq<nat>) returns (kept: seq<nat>)
    requires ValidOptionDraws(total, draws)
    ensures kept == Collect([total], draws) && |kept| == 3
  {
    kept := [total];
    var i := 0;
    while |kept| < 3
      invariant 0 <= i <= |draws| && 1 <= |kept| <= 3
      invariant Collect(kept, draws[i..]) == Collect([total], draws)
      invariant |kept| < 3 ==> i < |draws|
      decreases |draws| - i
    {
      var v := draws[i];
      assert draws[i..][1..] == draws[i + 1..];
      if v !in kept {
        kept := kept + [v];
      }
      i := i + 1;
    }
  }

  /** `makeRound`: `d1` and `d2` are the two pile draws in 0..4; the loop
      adds option draws to a set that starts with the total until it holds
      three; the options are then put in a random order. */
  method MakeRound(d1: nat, d2: nat, draws: seq<nat>, orderDraws: seq<nat>) returns (r: Round)
    requires d1 < 5 && d2 < 5
    requires ValidOptionDraws(d1 + d2 + 2, draws) && Shuffle.ValidDraws(orderDraws, 3)
    ensures WellFormed(r)
    ensures r.coin1 == d1 + 1 && r.coin2 == d2 + 1
  {
    var coin1 := d1 + 1;
    var coin2 := d2 + 1;
    var total := coin1 + coin2;
    var kept := CollectOptions(total, draws);
    CollectFacts([total], draws);
    assert kept[0] == total by {
      assert kept[..1] == [total];
    }
    assert forall k | 0 <= k < 3 :: 1 <= kept[k] <= 10 by {
      forall k | 0 <= k < 3
        ensures 1 <= kept[k] <= 10
      {
        if k > 0 {
          assert kept[k] in draws;
        }
      }
    }
    var options := Shuffle.Shuffle(kept, orderDraws);
    assert total in multiset(kept);
    forall k | 0 <= k < 3
      ensures 1 <= options[k] <= 10
    {
      assert options[k] in multiset(kept);
    }
    r := Round(coin1, coin2, total, options);
  }

  /** `Math.min(currentIndex + 1, TOTAL_ROUNDS)`: the question number shown. */
  function RoundNumber(index: nat): (r: nat)
    ensures 1 <= r <= TotalRounds
    ensures index < TotalRounds ==> r == index + 1
    ensures index >= TotalRounds ==> r == TotalRounds
  {
    if index + 1 < TotalRounds then index + 1 else TotalRounds
  }

  datatype Tier = Perfect | Good | TryAgain

  /** The summary's title: perfect at eight, good from half. */
  function TierFor(correct: nat): Tier {
    if correct == TotalRounds then Perfect
    else if correct >= (TotalRounds + 1) / 2 then Good
    else TryAgain
  }

  /** `Math.floor(correct / TOTAL_ROUNDS * 3)`: the lit stars. */
  function Stars(correct: nat): nat {
    correct * 3 / TotalRounds
  }

  /** Zero to three stars, three exactly for a perfect game, and the tier
      and star count agree: a good game has at least one star and a
      try-again game at most one. */
  lemma StarsAndTiers(correct: nat)
    requires correct <= TotalRounds
    ensures Stars(correct) <= 3
    ensures Stars(correct) == 3 <==> TierFor(correct) == Perfect
    ensures TierFor(correct) == Good ==> 1 <= Stars(correct) <= 2
    ensures TierFor(correct) == TryAgain ==> Stars(correct) <= 1
    ensures Stars(correct) == [0, 0, 0, 1, 1, 1, 2, 2, 3][correct]
  {
    assert correct in {0, 1, 2, 3, 4, 5, 6, 7, 8};
  }

  /** `correct / TOTAL_ROUNDS * 100`, written unrounded. */
  function Score(correct: nat): real {
    (correct as real) * 100.0 / (TotalRounds as real)
  }

  class Game {
    var started: bool
    /** `currentIndex`: the round being played, 0-based; 8 is the end. */
    var index: nat
    var round: Round
    var correct: nat
    var selected: Option<nat>
    var isCorrect: Option<bool>
    var locked: bool
    var loading: bool
    /** The 520 ms step of an answer is scheduled. */
    var pending: bool
    var mounted: bool

    /** `started && currentIndex >= TOTAL_ROUNDS` */
    predicate IsSummary()
      reads this
    {
      started && index >= TotalRounds
    }

    /** The index never passes the end, each answered round counts at most
        once, a selection is shown exactly while locked, and a round not yet
        answered has a scheduled step only while locked. */
    ghost predicate Valid()
      reads this
    {
      && WellFormed(round)
      && index <= TotalRounds
      && correct <= index + (if locked then 1 else 0)
      && (locked <==> selected.Some?)
      && (selected.Some? <==> isCorrect.Some?)
      && (pending ==> locked)
      && (locked ==> started && index < TotalRounds)
      && (locked && mounted ==> pending)
      && (!started ==> index == 0 && correct == 0)
    }

    constructor(d1: nat, d2: nat, draws: seq<nat>, orderDraws: seq<nat>)
      requires d1 < 5 && d2 < 5
      requires ValidOptionDraws(d1 + d2 + 2, draws) && Shuffle.ValidDraws(orderDraws, 3)
      ensures Valid() && !started && mounted && !loading
    {
      started := false;
      index := 0;
      correct := 0;
      selected := None;
      isCorrect := None;
      locked := false;
      loading := false;
      pending := false;
      mounted := true;
      new;
      round := MakeRound(d1, d2, draws, orderDraws);
    }

    /** `startGame`, offered before the game starts. */
    method StartGame(d1: nat, d2: nat, draws: seq<nat>, orderDraws: seq<nat>)
      requires Valid() && !started
      requires d1 < 5 && d2 < 5
      requires ValidOptionDraws(d1 + d2 + 2, draws) && Shuffle.ValidDraws(orderDraws, 3)
      modifies this
      ensures Valid() && started && !IsSummary() && mounted == old(mounted)
      ensures index == 0 && correct == 0 && !locked && selected.None? && isCorrect.None?
    {
      started := true;
      index := 0;
      correct := 0;
      selected := None;
      isCorrect := None;
      locked := false;
      round := MakeRound(d1, d2, draws, orderDraws);
    }

    /** `handleAnswer`, offered once started: ignored while locked or on the
        summary; otherwise it locks, shows the choice, counts it when it is
        the total, and schedules the step. */
    method HandleAnswer(opt: nat)
      requires Valid() && started && mounted
      modifies this
      ensures Valid()
      ensures old(locked) || old(IsSummary()) ==> unchanged(this)
      ensures !old(locked) && !old(IsSummary()) ==>
                && locked && pending && selected == Some(opt) && index == old(index) && round == old(round)
                && isCorrect == Some(opt == old(round).total)
                && correct == old(correct) + (if opt == old(round).total then 1 else 0)
    {
      if locked || IsSummary() {
        return;
      }
      locked := true;
      selected := Some(opt);
      var ok := opt == round.total;
      isCorrect := Some(ok);
      if ok {
        correct := correct + 1;
      }
      pending := true;
    }

    /** `goNext`: releases the lock and the selection, moves to the next
        index and deals a new round only if one remains. */
    method GoNext(d1: nat, d2: nat, draws: seq<nat>, orderDraws: seq<nat>)
      requires Valid() && locked
      requires d1 < 5 && d2 < 5
      requires ValidOptionDraws(d1 + d2 + 2, draws) && Shuffle.ValidDraws(orderDraws, 3)
      modifies this
      ensures Valid() && !locked && !pending && selected.None? && isCorrect.None?
      ensures index == old(index) + 1 && correct == old(correct) && started
      ensures index < TotalRounds ==> round.coin1 == d1 + 1 && round.coin2 == d2 + 1
      ensures index == TotalRounds ==> round == old(round) && IsSummary()
      ensures mounted == old(mounted)
    {
      selected := None;
      isCorrect := None;
      locked := false;
      pending := false;
      index := index + 1;
      if index < TotalRounds {
        round := MakeRound(d1, d2, draws, orderDraws);
      }
    }

    /** The timer firing: `goNext` runs only while mounted. */
    method Fire(d1: nat, d2: nat, draws: seq<nat>, orderDraws: seq<nat>)
      requires Valid() && pending
      requires d1 < 5 && d2 < 5
      requires ValidOptionDraws(d1 + d2 + 2, draws) && Shuffle.ValidDraws(orderDraws, 3)
      modifies this
      ensures Valid() && !pending
      ensures !old(mounted) ==> index == old(index) && correct == old(correct) && locked
      ensures old(mounted) ==> index == old(index) + 1 && correct == old(correct) && !locked
    {
      if mounted {
        GoNext(d1, d2, draws, orderDraws);
      } else {
        pending := false;
      }
    }

    /** Unmount: the timer stays scheduled but now does nothing. */
    method Unmount()
      requires Valid()
      modifies this
      ensures Valid() && !mounted
      ensures index == old(index) && correct == old(correct) && pending == old(pending)
    {
      mounted := false;
    }

    /** `handleComplete`, offered on the summary: award 25 coins and 65 xp,
        then, if the module is not yet listed, write it with the unrounded
        score. */
    method Complete(api: Server.Api, store: UserStore.Store) returns (outcome: Commit.Outcome)
      requires Valid() && IsSummary() && api.Valid() && !loading
      modifies this, api, store
      ensures Valid() && IsSummary() && correct == old(correct) && !loading
      ensures api.Valid()
      ensures old(store.user).None? ==> outcome == Commit.Skipped && api.users == old(api.users)
                                        && api.progress == old(api.progress) && store.user == old(store.user)
      ensures old(store.user).Some? ==>
                var id := old(store.user).value.id;
                var before := Commit.Read(old(api.progress), id);
                var merged := Progress.FirstCompletion(before, ModuleKey, Score(correct));
                && (outcome.Saved? <==> Commit.CoinsRefusal(old(api.users), id, CoinsEarned).None?)
                && (outcome.Failed? <==> !outcome.Saved?)
                && (outcome.Failed? ==> api.users == old(api.users) && api.progress == old(api.progress)
                                        && store.user == old(store.user))
                && (outcome.Saved? ==>
                      && api.users == Commit.RewardedAt(old(api.users), id, CoinsEarned, XpEarned)
                      && store.user == Some(Commit.Mirrored(old(store.user).value, old(api.users), CoinsEarned, XpEarned, false))
                      && api.progress == old(api.progress)[id := if merged.Some? then merged.value else before])
    {
      if store.user.None? {
        return Commit.Skipped;
      }
      var id := store.user.value.id;
      loading := true;
      var rewards := Commit.GrantRewards(api, store, CoinsEarned, XpEarned, false);
      if rewards.Err? {
        loading := false;
        return Commit.Failed(rewards.error);
      }
      var merged := Commit.SaveFirst(api, id, ModuleKey, Score(correct));
      loading := false;
      outcome := Commit.Saved;
    }
  }

  /** The score is 12.5 points per right answer, so a perfect game writes
      100 and any game at most 100. */
  lemma ScoreRange(correct: nat)
    requires correct <= TotalRounds
    ensures Score(correct) == 12.5 * (correct as real)
    ensures 0.0 <= Score(correct) <= 100.0
    ensures Score(correct) == 100.0 <==> correct == TotalRounds
  {
  }
}
