/** "¿Necesito o Quiero?": eight items drawn from a bank of twelve, each
    to be classified as a need or a want. */
module NeedsWants {
  import opened Common
  import Shuffle
  import Server
  import UserStore
  import Progress
  import Commit

  datatype Kind = Need | Want

  datatype Item = Item(id: nat, name: string, kind: Kind)

  const TotalRounds: nat := 8

  const BaseItems: seq<Item> := [
    Item(1, "Comida", Need), Item(2, "Juguete", Want), Item(3, "Agua", Need),
    Item(4, "Dulces", Want), Item(5, "Ropa", Need), Item(6, "Videojuego", Want),
    Item(7, "Medicina", Need), Item(8, "Helado", Want), Item(9, "Alquiler", Need),
    Item(10, "Chocolate", Want), Item(11, "Abrigo", Need), Item(12, "Teléfono nuevo", Want)
  ]

  const ModuleKey := "needs_wants"
  const CoinsEarned := 25
  const XpEarned := 60

  /** The bank lists twelve different items. */
  lemma BaseItemsDistinct()
    ensures |BaseItems| == 12 && NoDup(BaseItems)
  {
    forall p, q | 0 <= p < q < |BaseItems|
      ensures BaseItems[p] != BaseItems[q]
    {
      assert BaseItems[p].id == p + 1 && BaseItems[q].id == q + 1;
    }
  }

  /** `Math.round(correct / (total || 1) * 100)` */
  function ScorePercent(correct: nat, total: nat): (r: nat)
    ensures correct <= total ==> r <= 100
    ensures total > 0 && correct == total ==> r == 100
    ensures correct == 0 ==> r == 0
  {
    RoundPercent(correct, if total == 0 then 1 else total)
  }

  /** The six closing messages of the summary screen. */
  datatype Feedback = Perfect | VeryGood | GoodProgress | StepByStep | OnTheWay | KeepPracticing

  function FinalFeedback(correct: nat, total: nat): Feedback {
    var score := ScorePercent(correct, total);
    if correct == total && total > 0 then Perfect
    else if score >= 80 then VeryGood
    else if score >= 60 then GoodProgress
    else if correct == 0 then StepByStep
    else if 2 * correct < total then OnTheWay
    else KeepPracticing
  }

  /** The message for each possible result of an eight-item game. */
  lemma FeedbackForEightItems(correct: nat)
    requires correct <= 8
    ensures FinalFeedback(correct, 8) ==
            [StepByStep, OnTheWay, OnTheWay, OnTheWay, KeepPracticing, GoodProgress, GoodProgress, VeryGood, Perfect][correct]
  {
    RoundPercentFacts(correct, 8);
  }

  /** A perfect message means every answer was right. */
  lemma PerfectMeansAllCorrect(correct: nat, total: nat)
    requires correct <= total
    ensures FinalFeedback(correct, total) == Perfect <==> correct == total && total > 0
  {
  }

  /** The first `n` elements of a permutation of a duplicate-free list are
      `n` distinct members of it. */
  lemma PrefixOfPermutation<T>(p: seq<T>, s: seq<T>, n: nat)
    requires multiset(p) == multiset(s) && NoDup(p) && n <= |p|
    ensures |p[..n]| == n && NoDup(p[..n])
    ensures forall k | 0 <= k < n :: p[..n][k] in s
  {
    forall k | 0 <= k < n
      ensures p[..n][k] in s
    {
      assert p[k] in multiset(p);
    }
  }

  /** `shuffle([...BASE_ITEMS]).slice(0, TOTAL_ROUNDS)` */
  method DrawItems(draws: seq<nat>) returns (items: seq<Item>)
    requires Shuffle.ValidDraws(draws, |BaseItems|)
    ensures |items| == TotalRounds && NoDup(items) && forall k | 0 <= k < |items| :: items[k] in BaseItems
  {
    BaseItemsDistinct();
    var shuffled := Shuffle.Shuffle(BaseItems, draws);
    PrefixOfPermutation(shuffled, BaseItems, TotalRounds);
    items := shuffled[..TotalRounds];
  }

  class Game {
    var phase: Phase
    var items: seq<Item>
    var index: nat
    var correct: nat
    /** Needs answered as wants, and wants answered as needs. */
    var mistakesNeed: nat
    var mistakesWant: nat
    var locked: bool
    /** The 700 ms advance is scheduled. */
    var pending: bool
    var mounted: bool

    /** `items.length || TOTAL_ROUNDS` */
    function Total(): nat
      reads this
    {
      if |items| == 0 then TotalRounds else |items|
    }

    function Answered(): nat
      reads this
    {
      correct + mistakesNeed + mistakesWant
    }

    /** While playing, the lock is held exactly while an advance is
        pending, and every answered item has been counted once; after the
        start, correct <= index + 1 <= total. */
    ghost predicate Valid()
      reads this
    {
      && (pending ==> phase == Playing && locked && mounted)
      && (phase == Playing ==> && |items| == TotalRounds && index < |items|
                               && (mounted ==> (locked <==> pending))
                               && Answered() == index + (if locked then 1 else 0))
      && (phase == Summary ==> |items| == TotalRounds && index == |items| - 1 && Answered() == |items|)
      && (phase != Intro ==> correct <= index + 1 <= Total())
    }

    constructor()
      ensures Valid() && mounted && phase == Intro && !locked && !pending
      ensures items == [] && index == 0 && correct == 0 && mistakesNeed == 0 && mistakesWant == 0
    {
      phase := Intro;
      items := [];
      index := 0;
      correct := 0;
      mistakesNeed := 0;
      mistakesWant := 0;
      locked := false;
      pending := false;
      mounted := true;
    }

    /** `startGame`, offered on the intro screen: eight distinct items of
        the bank, all counters at zero, input open. */
    method StartGame(draws: seq<nat>)
      requires Valid() && mounted && phase == Intro
      requires Shuffle.ValidDraws(draws, |BaseItems|)
      modifies this
      ensures Valid() && mounted && phase == Playing && !locked && !pending
      ensures index == 0 && correct == 0 && mistakesNeed == 0 && mistakesWant == 0
      ensures |items| == TotalRounds && NoDup(items) && forall k | 0 <= k < |items| :: items[k] in BaseItems
    {
      items := DrawItems(draws);
      index := 0;
      correct := 0;
      mistakesNeed := 0;
      mistakesWant := 0;
      phase := Playing;
      locked := false;
    }

    /** `handleAnswer`, offered while playing: ignored while the input is
        locked or there is no current item; otherwise it locks the input,
        counts the answer as right or as the kind of mistake the item's
        kind calls for, and schedules the advance. */
    method HandleAnswer(answer: Kind)
      requires Valid() && mounted && phase == Playing
      modifies this
      ensures Valid()
      ensures old(locked) || old(index) >= |old(items)| ==> unchanged(this)
      ensures !old(locked) && old(index) < |old(items)| ==>
                var kind := old(items)[old(index)].kind;
                && locked && pending && phase == Playing && items == old(items) && index == old(index)
                && correct == old(correct) + (if answer == kind then 1 else 0)
                && mistakesNeed == old(mistakesNeed) + (if answer != kind && kind == Need then 1 else 0)
                && mistakesWant == old(mistakesWant) + (if answer != kind && kind == Want then 1 else 0)
    {
      if index >= |items| || locked {
        return;
      }
      locked := true;
      var kind := items[index].kind;
      if answer == kind {
        correct := correct + 1;
      } else if kind == Need {
        mistakesNeed := mistakesNeed + 1;
      } else {
        mistakesWant := mistakesWant + 1;
      }
      pending := true;
    }

    /** The scheduled step: the next item while one remains, else the
        summary; the input is released either way. */
    method Advance()
      requires Valid() && pending
      modifies this
      ensures Valid() && !pending && !locked && mounted
      ensures items == old(items) && correct == old(correct)
      ensures mistakesNeed == old(mistakesNeed) && mistakesWant == old(mistakesWant)
      ensures old(index) + 1 < old(Total()) ==> phase == Playing && index == old(index) + 1
      ensures old(index) + 1 >= old(Total()) ==> phase == Summary && index == old(index)
    {
      pending := false;
      if index + 1 < Total() {
        index := index + 1;
        locked := false;
      } else {
        phase := Summary;
        locked := false;
      }
    }

    /** Unmount: the clean-up clears the scheduled advance. */
    method Cancel()
      requires Valid()
      modifies this
      ensures Valid() && !pending && !mounted
      ensures phase == old(phase) && index == old(index) && correct == old(correct)
    {
      pending := false;
      mounted := false;
    }

    /** "Reintentar" on the summary screen. */
    method Retry()
      requires Valid() && phase == Summary
      modifies this
      ensures Valid() && phase == Intro && !pending
      ensures items == old(items) && index == old(index) && correct == old(correct)
    {
      phase := Intro;
    }

    function Score(): nat
      reads this
    {
      ScorePercent(correct, Total())
    }

    /** `handleComplete`, offered on the summary screen: award 25 coins and
        60 xp, then write the best-score merge of the percentage into the
        stored progress. */
    method Complete(api: Server.Api, store: UserStore.Store) returns (outcome: Commit.Outcome)
      requires Valid() && phase == Summary && api.Valid()
      modifies api, store
      ensures api.Valid()
      ensures old(store.user).None? ==> outcome == Commit.Skipped && api.users == old(api.users)
                                        && api.progress == old(api.progress) && store.user == old(store.user)
      ensures old(store.user).Some? ==>
                var id := old(store.user).value.id;
                && (outcome.Saved? <==> Commit.CoinsRefusal(old(api.users), id, CoinsEarned).None?)
                && (outcome.Failed? ==> api.users == old(api.users) && api.progress == old(api.progress)
                                        && store.user == old(store.user))
                && (outcome.Saved? ==>
                      && api.users == Commit.RewardedAt(old(api.users), id, CoinsEarned, XpEarned)
                      && store.user == Some(Commit.Mirrored(old(store.user).value, old(api.users), CoinsEarned, XpEarned, false))
                      && api.progress == old(api.progress)[id := Progress.BestScore(Commit.Read(old(api.progress), id),
                                                                                    ModuleKey, Score() as real).snapshot])
    {
      if store.user.None? {
        return Commit.Skipped;
      }
      var id := store.user.value.id;
      var rewards := Commit.GrantRewards(api, store, CoinsEarned, XpEarned, false);
      if rewards.Err? {
        return Commit.Failed(rewards.error);
      }
      ghost var shown := store.user;
      var current := api.GetProgress(id);
      assert current.Ok?;
      var merge := Progress.BestScore(current.value, ModuleKey, Score() as real);
      var created := api.UpdateProgress(id, merge.snapshot);
      assert store.user == shown;
      outcome := Commit.Saved;
    }
  }
}
