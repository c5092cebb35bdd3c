/** "Préstamos y Deudas": four borrowing situations, each answered by
    borrowing, saving or asking the family, with an explanation in a modal
    between them. */
module Debt {
  import opened Common
  import Server
  import UserStore
  import Progress
  import Commit

  datatype Answer = Borrow | Save | Ask

  /** The parts of a situation the game computes with; amounts are in
      dollars, the rate in percent. */
  datatype Scenario = Scenario(id: nat, borrowed: real, interestRate: real, months: real, correctAnswer: Answer)

  const Scenarios: seq<Scenario> := [
    Scenario(1, 100.0, 10.0, 2.0, Save),
    Scenario(2, 60.0, 8.3, 0.25, Save),
    Scenario(3, 20.0, 0.0, 1.0, Ask),
    Scenario(4, 30.0, 33.3, 3.0, Ask)
  ]

  const ModuleKey := "debt_game"
  const Wizard := "financial_wizard"
  const XpEarned := 90

  /** The interest the "Los Números" card shows as the extra cost. */
  function Extra(s: Scenario): real {
    s.borrowed * (s.interestRate / 100.0)
  }

  /** The amount the card says must be paid back. */
  function Owed(s: Scenario): real {
    s.borrowed + Extra(s)
  }

  /** Every situation lends a positive amount at a non-negative rate, so
      the amount owed is never below the amount borrowed, and equals it
      exactly when the loan is interest-free (the family loan). */
  lemma OwedAtLeastBorrowed()
    ensures |Scenarios| == 4
    ensures forall k | 0 <= k < |Scenarios| ::
              && Owed(Scenarios[k]) == Scenarios[k].borrowed + Extra(Scenarios[k])
              && Extra(Scenarios[k]) >= 0.0
              && (Owed(Scenarios[k]) == Scenarios[k].borrowed <==> Scenarios[k].interestRate == 0.0)
    ensures Owed(Scenarios[0]) == 110.0 && Owed(Scenarios[2]) == 20.0
  {
    forall k | 0 <= k < |Scenarios|
      ensures Extra(Scenarios[k]) >= 0.0
      ensures Owed(Scenarios[k]) == Scenarios[k].borrowed <==> Scenarios[k].interestRate == 0.0
    {
      var s := Scenarios[k];
      assert s.borrowed > 0.0 && s.interestRate >= 0.0;
      MulPositive(s.borrowed, s.interestRate / 100.0);
    }
  }

  lemma MulPositive(a: real, b: real)
    requires a > 0.0 && b >= 0.0
    ensures a * b >= 0.0
    ensures a * b == 0.0 <==> b == 0.0
  {
  }

  /** `Math.round(correct / 4 * 100)` */
  function Score(correct: nat): nat {
    RoundPercent(correct, |Scenarios|)
  }

  /** The four possible scores are 0, 25, 50, 75 and 100. */
  lemma ScoreIsQuarter(correct: nat)
    requires correct <= |Scenarios|
    ensures Score(correct) == 25 * correct
  {
    RoundPercentFacts(correct, 4);
  }

  /** The summary's badge: a trophy at 100, a medal from 50, else the cat. */
  datatype Badge = Trophy | Medal | KeepTrying

  function BadgeFor(score: nat): Badge {
    if score == 100 then Trophy else if score >= 50 then Medal else KeepTrying
  }

  /** The trophy needs all four answers right, the medal two or three. */
  lemma BadgeTiers(correct: nat)
    requires correct <= |Scenarios|
    ensures BadgeFor(Score(correct)) == [KeepTrying, KeepTrying, Medal, Medal, Trophy][correct]
  {
    ScoreIsQuarter(correct);
  }

  /** 45 coins from three right answers up, 30 otherwise. */
  function CoinsEarned(correct: nat): (r: int)
    ensures r == 45 || r == 30
    ensures r == 45 <==> correct >= 3
  {
    if correct >= 3 then 45 else 30
  }

  class Game {
    var phase: Phase
    var idx: nat
    var correct: nat
    /** `busyRef`: set by an answer, released by the delayed step. */
    var busy: bool
    /** The explanation modal is open. */
    var modalOpen: bool
    /** `onNext`'s 120 ms step is scheduled. */
    var pending: bool
    var loading: bool

    /** During play the lock is held from the answer until the delayed step
        has run, while the modal is open or the step is waiting, and each
        situation is counted at most once. */
    ghost predicate Valid()
      reads this
    {
      && idx < |Scenarios|
      && (modalOpen || pending ==> phase == Playing)
      && !(modalOpen && pending)
      && (phase == Intro ==> idx == 0 && correct == 0 && !busy)
      && (phase == Playing ==> (busy <==> modalOpen || pending)
                               && correct <= idx + (if busy then 1 else 0))
      && (phase == Summary ==> idx == |Scenarios| - 1 && correct <= |Scenarios| && !busy)
    }

    constructor()
      ensures Valid() && phase == Intro && idx == 0 && correct == 0
      ensures !busy && !modalOpen && !pending && !loading
    {
      phase := Intro;
      idx := 0;
      correct := 0;
      busy := false;
      modalOpen := false;
      pending := false;
      loading := false;
    }

    /** "¡Comenzar!" on the intro screen. */
    method Start()
      requires Valid() && phase == Intro
      modifies this
      ensures Valid() && phase == Playing && idx == 0 && correct == 0 && !busy
    {
      phase := Playing;
    }

    /** `onAnswer`: ignored while busy; otherwise it takes the lock, counts
        the answer when it is the situation's right one, and opens the
        explanation. */
    method OnAnswer(a: Answer)
      requires Valid() && phase == Playing
      modifies this
      ensures Valid()
      ensures old(busy) ==> unchanged(this)
      ensures !old(busy) ==> && busy && modalOpen && !pending && phase == Playing && idx == old(idx)
                             && correct == old(correct) + (if a == Scenarios[old(idx)].correctAnswer then 1 else 0)
    {
      if busy {
        return;
      }
      busy := true;
      if a == Scenarios[idx].correctAnswer {
        correct := correct + 1;
      }
      modalOpen := true;
    }

    /** `onNext`, the modal's "Continuar": closes it and schedules the step. */
    method OnNext()
      requires Valid() && modalOpen
      modifies this
      ensures Valid() && !modalOpen && pending && busy
      ensures phase == old(phase) && idx == old(idx) && correct == old(correct)
    {
      modalOpen := false;
      pending := true;
    }

    /** The scheduled step: the next situation while one remains, else the
        summary; the lock is released either way. */
    method Fire()
      requires Valid() && pending
      modifies this
      ensures Valid() && !pending && !busy && !modalOpen && correct == old(correct)
      ensures old(idx) < |Scenarios| - 1 ==> phase == Playing && idx == old(idx) + 1
      ensures old(idx) == |Scenarios| - 1 ==> phase == Summary && idx == old(idx)
    {
      pending := false;
      if idx < |Scenarios| - 1 {
        idx := idx + 1;
      } else {
        phase := Summary;
      }
      busy := false;
    }

    /** `handleComplete`, offered on the summary screen: award 45 or 30
        coins and 90 xp, the store taking the server's coin total; then, if
        the module is not yet listed, write it with its score, and unlock
        `financial_wizard` when it is the fourth module listed. */
    method Complete(api: Server.Api, store: UserStore.Store) returns (outcome: Commit.Outcome)
      requires Valid() && phase == Summary && api.Valid() && !loading
      modifies this, api, store
      ensures Valid() && phase == Summary && correct == old(correct) && !loading
      ensures api.Valid()
      ensures old(store.user).None? ==> outcome == Commit.Skipped && api.users == old(api.users)
                                        && api.progress == old(api.progress) && store.user == old(store.user)
      ensures old(store.user).Some? ==>
                var id := old(store.user).value.id;
                var coins := CoinsEarned(correct);
                && outcome != Commit.Crashed && outcome != Commit.Skipped
                && (Commit.CoinsRefusal(old(api.users), id, coins).Some? <==> outcome.Failed?)
                && (outcome.Failed? ==> api.users == old(api.users) && api.progress == old(api.progress)
                                        && store.user == old(store.user))
                && (outcome.Saved? ==>
                      && store.user.Some? && store.user.value.coins == old(api.users)[id].coins + coins
                      && Committed(old(store.user).value, old(api.users), old(api.progress), coins, Score(correct),
                                   store.user, api.users, api.progress))
    {
      loading := true;
      outcome := CommitRun(api, store, CoinsEarned(correct), Score(correct));
      loading := false;
    }
  }

  /** The state a saved commit leaves, for the profile `user0` the screen
      rendered with: the rewards, the first completion, and
      `financial_wizard` when it makes four modules, on the server and
      mirrored in the store, whose coins are the server's new total. */
  ghost predicate Committed(user0: UserStore.User, users0: map<string, Server.User>, progress0: map<string, Progress.Snapshot>,
                            coins: int, score: nat, user: Common.Option<UserStore.User>,
                            users: map<string, Server.User>, progress: map<string, Progress.Snapshot>)
  {
    var id := user0.id;
    var before := Commit.Read(progress0, id);
    var merged := Progress.FirstCompletion(before, ModuleKey, score as real);
    var rewarded := Commit.RewardedAt(users0, id, coins, XpEarned);
    && id in users0
    && progress == progress0[id := if merged.Some? then merged.value else before]
    && users == (if merged.Some? && |merged.value.completed| == 4 then Commit.BadgeAt(rewarded, id, Wizard)
                 else rewarded)
    && (var mirrored := Commit.Mirrored(user0, users0, coins, XpEarned, true);
        user == Common.Some(if merged.Some? && |merged.value.completed| == 4 then UserStore.WithBadge(mirrored, Wizard)
                            else mirrored))
  }

  /** The commit of `handleComplete` for a given award and score. */
  method CommitRun(api: Server.Api, store: UserStore.Store, coins: int, score: nat) returns (outcome: Commit.Outcome)
    requires api.Valid()
    modifies api, store
    ensures api.Valid()
    ensures old(store.user).None? ==> outcome == Commit.Skipped && api.users == old(api.users)
                                      && api.progress == old(api.progress) && store.user == old(store.user)
    ensures old(store.user).Some? ==>
              var id := old(store.user).value.id;
              && (outcome.Saved? <==> Commit.CoinsRefusal(old(api.users), id, coins).None?)
              && (outcome.Failed? <==> !outcome.Saved?)
              && (outcome.Failed? ==> api.users == old(api.users) && api.progress == old(api.progress)
                                      && store.user == old(store.user))
              && (outcome.Saved? ==>
                    && store.user.Some? && store.user.value.coins == old(api.users)[id].coins + coins
                    && Committed(old(store.user).value, old(api.users), old(api.progress), coins, score,
                                 store.user, api.users, api.progress))
  {
    if store.user.None? {
      return Commit.Skipped;
    }
    var id := store.user.value.id;
    var rewards := Commit.GrantRewards(api, store, coins, XpEarned, true);
    if rewards.Err? {
      return Commit.Failed(rewards.error);
    }
    var merged := Commit.SaveFirst(api, id, ModuleKey, score as real);
    if merged.Some? && |merged.value.completed| == 4 {
      var unlocked := Commit.UnlockBadge(api, store, Wizard);
      assert unlocked.Ok?;
    }
    outcome := Commit.Saved;
  }
}
