/** "Reto del Ahorro": choose something to buy for $5 to $100 and save part
    of a $10 weekly income for up to eight weeks. */
module Savings {
  import Common
  import Text
  import Server
  import UserStore
  import Progress
  import Commit

  const TotalWeeks: nat := 8
  /** The weekly income; its field starts at "10" and the screen has no
      input for it. */
  const Income: real := 10.0
  const ModuleKey := "savings_challenge"
  const Saver := "saver"
  const XpEarned := 75

  datatype Week = Week(week: nat, saved: real, totalSaved: real)

  /** The amount saved over the recorded weeks. */
  function Saved(weeks: seq<Week>): real {
    if weeks == [] then 0.0 else Saved(weeks[..|weeks| - 1]) + weeks[|weeks| - 1].saved
  }

  lemma SavedAppend(weeks: seq<Week>, w: Week)
    ensures Saved(weeks + [w]) == Saved(weeks) + w.saved
  {
    assert (weeks + [w])[..|weeks|] == weeks;
  }

  /** Each record is numbered by its week, saves between nothing and the
      income, and holds the running total up to it. */
  predicate Recorded(weeks: seq<Week>) {
    weeks == [] ||
    (var last := weeks[|weeks| - 1];
     && Recorded(weeks[..|weeks| - 1])
     && last.week == |weeks|
     && 0.0 <= last.saved <= Income
     && last.totalSaved == Saved(weeks))
  }

  /** `!goalName.trim()` */
  predicate Blank(name: string) {
    Text.Trim(Text.Js, name) == ""
  }

  lemma RecordedAppend(weeks: seq<Week>, w: Week)
    requires Recorded(weeks) && w.week == |weeks| + 1 && 0.0 <= w.saved <= Income
    requires w.totalSaved == Saved(weeks) + w.saved
    ensures Recorded(weeks + [w]) && Saved(weeks + [w]) == w.totalSaved
  {
    SavedAppend(weeks, w);
    assert (weeks + [w])[..|weeks|] == weeks;
  }

  /** Why a goal is refused, in the order the checks run. */
  datatype GoalError = NoName | NoPrice | PriceOutOfRange

  /** The checks of `handleSetupGoal`. `price` is `None` when the field is
      empty or `parseFloat` cannot read it. A blank name, a missing or
      non-positive price, and a price outside $5 to $100 are refused in
      that order; only a named goal of $5 to $100 is accepted. */
  function GoalCheck(name: string, price: Common.Option<real>): (r: Common.Option<GoalError>)
    ensures Blank(name) ==> r == Common.Some(NoName)
    ensures !Blank(name) && (price.None? || price.value <= 0.0) ==> r == Common.Some(NoPrice)
    ensures !Blank(name) && price.Some? && 0.0 < price.value && (price.value < 5.0 || price.value > 100.0) ==>
              r == Common.Some(PriceOutOfRange)
    ensures r.None? <==> !Blank(name) && price.Some? && 5.0 <= price.value <= 100.0
  {
    if Blank(name) then Common.Some(NoName)
    else if price.None? || price.value <= 0.0 then Common.Some(NoPrice)
    else if price.value < 5.0 || price.value > 100.0 then Common.Some(PriceOutOfRange)
    else Common.None
  }

  /** Why a week's saving is refused. */
  datatype SavingError = InvalidAmount | AboveIncome

  /** The checks of `handleWeeklySaving`. `amount` is `None` when
      `parseFloat` cannot read it. A missing or negative amount, then one
      above the income, is refused; only 0 to 10 is accepted. */
  function SavingCheck(amount: Common.Option<real>): (r: Common.Option<SavingError>)
    ensures amount.None? || amount.value < 0.0 ==> r == Common.Some(InvalidAmount)
    ensures amount.Some? && amount.value > Income ==> r == Common.Some(AboveIncome)
    ensures r.None? <==> amount.Some? && 0.0 <= amount.value <= Income
  {
    if amount.None? || amount.value < 0.0 then Common.Some(InvalidAmount)
    else if amount.value > Income then Common.Some(AboveIncome)
    else Common.None
  }

  /** `calculateScore`: reaching the goal scores 100 less 5 per week used,
      at least 60; missing it scores half the percentage reached, rounded
      down. */
  function Score(total: real, goal: real, weeks: nat): int
    requires goal > 0.0
  {
    if total >= goal then (if 100 - weeks * 5 > 60 then 100 - weeks * 5 else 60)
    else (total / goal * 50.0).Floor
  }

  /** Within the game's eight weeks the goal reached scores 100 less five
      per week (60 to 95) and a goal missed scores 0 to 49, so reaching the
      goal always scores more than missing it. */
  lemma ScoreBands(total: real, goal: real, weeks: nat)
    requires 0.0 <= total && goal > 0.0 && 1 <= weeks <= TotalWeeks
    ensures total >= goal ==> Score(total, goal, weeks) == 100 - 5 * weeks && 60 <= Score(total, goal, weeks) <= 95
    ensures total < goal ==> 0 <= Score(total, goal, weeks) < 50
  {
    if total < goal {
      RatioBelowOne(total, goal);
    }
  }

  lemma RatioBelowOne(a: real, b: real)
    requires 0.0 <= a < b
    ensures 0.0 <= a / b * 50.0 < 50.0
  {
    var q := a / b;
    assert q * b == a;
    assert (1.0 - q) * b == b - a;
    PositiveFactor(1.0 - q, b);
  }

  lemma PositiveFactor(x: real, b: real)
    requires b > 0.0 && x * b > 0.0
    ensures x > 0.0
  {
  }

  /** 30 coins when the goal is reached, 20 otherwise. */
  function CoinsEarned(achieved: bool): (r: int)
    ensures r == 30 || r == 20
    ensures r == 30 <==> achieved
  {
    if achieved then 30 else 20
  }

  datatype Stage = Intro | Setup | Saving | Summary

  class Game {
    var stage: Stage
    var goalName: string
    /** `goalAmount`, fixed once the saving starts. */
    var goal: real
    var currentWeek: nat
    var totalSaved: real
    var weeks: seq<Week>
    /** The week's result modal is shown. */
    var showResult: bool
    var loading: bool

    /** One record per week played, numbered in order, each saving between
        nothing and the income, with its running total; the total is their
        sum; the game goes on only while the goal is out of reach and ends
        at the goal or after the eighth week. */
    ghost predicate Valid()
      reads this
    {
      && 1 <= currentWeek <= TotalWeeks
      && totalSaved == Saved(weeks)
      && Recorded(weeks)
      && (stage == Intro || stage == Setup ==> currentWeek == 1 && weeks == [] && !showResult)
      && (stage == Saving || stage == Summary ==> 5.0 <= goal <= 100.0)
      && (stage == Saving ==> |weeks| == currentWeek - 1 + (if showResult then 1 else 0))
      && (stage == Saving && !showResult ==> totalSaved < goal)
      && (stage == Summary ==> !showResult && 1 <= |weeks| == currentWeek
                               && (totalSaved >= goal || |weeks| == TotalWeeks))
    }

    constructor()
      ensures Valid() && stage == Intro && totalSaved == 0.0 && !loading
    {
      stage := Intro;
      goalName := "";
      goal := 0.0;
      currentWeek := 1;
      totalSaved := 0.0;
      weeks := [];
      showResult := false;
      loading := false;
    }

    /** The intro's button. */
    method Start()
      requires Valid() && stage == Intro
      modifies this
      ensures Valid() && stage == Setup && weeks == [] && totalSaved == 0.0
    {
      stage := Setup;
    }

    /** `handleSetupGoal`: a refused goal changes nothing; an accepted one
        starts the saving with that name and price. */
    method SetupGoal(name: string, price: Common.Option<real>) returns (err: Common.Option<GoalError>)
      requires Valid() && stage == Setup
      modifies this
      ensures Valid()
      ensures err == GoalCheck(name, price)
      ensures err.Some? ==> unchanged(this)
      ensures err.None? ==> stage == Saving && goal == price.value && goalName == name
                            && currentWeek == 1 && weeks == [] && !showResult
    {
      err := GoalCheck(name, price);
      if err.None? {
        goalName := name;
        goal := price.value;
        stage := Saving;
      }
    }

    /** `handleWeeklySaving`: a refused amount changes nothing; an accepted
        one records the week with the new running total and shows its
        result. */
    method HandleWeeklySaving(amount: Common.Option<real>) returns (err: Common.Option<SavingError>)
      requires Valid() && stage == Saving && !showResult
      modifies this
      ensures Valid()
      ensures err == SavingCheck(amount)
      ensures err.Some? ==> unchanged(this)
      ensures err.None? ==>
                && showResult && stage == Saving && currentWeek == old(currentWeek)
                && totalSaved == old(totalSaved) + amount.value
                && weeks == old(weeks) + [Week(old(currentWeek), amount.value, totalSaved)]
    {
      err := SavingCheck(amount);
      if err.Some? {
        return;
      }
      var saved := amount.value;
      var newTotal := totalSaved + saved;
      var record := Week(currentWeek, saved, newTotal);
      RecordedAppend(weeks, record);
      weeks := weeks + [record];
      totalSaved := newTotal;
      showResult := true;
    }

    /** `handleNextWeek`, the modal's button: the summary once the goal is
        reached, otherwise the next week, or the summary after the eighth. */
    method HandleNextWeek()
      requires Valid() && stage == Saving && showResult
      modifies this
      ensures Valid() && !showResult && weeks == old(weeks) && totalSaved == old(totalSaved)
      ensures totalSaved >= goal ==> stage == Summary && currentWeek == old(currentWeek)
      ensures totalSaved < goal && old(currentWeek) < TotalWeeks ==>
                stage == Saving && currentWeek == old(currentWeek) + 1
      ensures totalSaved < goal && old(currentWeek) == TotalWeeks ==> stage == Summary
    {
      showResult := false;
      if totalSaved >= goal {
        stage := Summary;
      } else if currentWeek < TotalWeeks {
        currentWeek := currentWeek + 1;
      } else {
        stage := Summary;
      }
    }

    /** `handleComplete`, offered on the summary: 30 or 20 coins and
        75 xp; then, if the module is not yet listed, it is written with the
        score and `saver` is unlocked. A refused step ends the commit. */
    method Complete(api: Server.Api, store: UserStore.Store) returns (outcome: Commit.Outcome)
      requires Valid() && stage == Summary && api.Valid() && !loading
      modifies this, api, store
      ensures Valid() && stage == Summary && totalSaved == old(totalSaved) && !loading
      ensures api.Valid()
      ensures old(store.user).None? ==> outcome == Commit.Skipped && api.users == old(api.users)
                                        && api.progress == old(api.progress) && store.user == old(store.user)
      ensures old(store.user).Some? ==>
                var id := old(store.user).value.id;
                var coins := CoinsEarned(totalSaved >= goal);
                var score := Score(totalSaved, goal, |weeks|);
                && (outcome.Saved? <==> Commit.CoinsRefusal(old(api.users), id, coins).None?)
                && (outcome.Failed? <==> !outcome.Saved?)
                && (outcome.Failed? ==> api.users == old(api.users) && api.progress == old(api.progress)
                                        && store.user == old(store.user))
                && (outcome.Saved? ==> Committed(old(store.user).value, old(api.users), old(api.progress), coins, score,
                                                 store.user, api.users, api.progress))
    {
      if store.user.None? {
        return Commit.Skipped;
      }
      loading := true;
      outcome := CommitRun(api, store, CoinsEarned(totalSaved >= goal), Score(totalSaved, goal, |weeks|));
      loading := false;
    }
  }

  /** The state after a commit that was accepted, for the profile `user0`
      the screen rendered with: both awards, the first-completion merge and,
      when it listed the module, `saver`, on the server and mirrored in the
      store. */
  ghost predicate Committed(user0: UserStore.User, users0: map<string, Server.User>, progress0: map<string, Progress.Snapshot>,
                            coins: int, score: int, user: Common.Option<UserStore.User>,
                            users: map<string, Server.User>, progress: map<string, Progress.Snapshot>)
  {
    var id := user0.id;
    var before := Commit.Read(progress0, id);
    var merged := Progress.FirstCompletion(before, ModuleKey, score as real);
    var rewarded := Commit.RewardedAt(users0, id, coins, XpEarned);
    && id in users0
    && progress == progress0[id := if merged.Some? then merged.value else before]
    && users == (if merged.Some? then Commit.BadgeAt(rewarded, id, Saver) else rewarded)
    && (var mirrored := Commit.Mirrored(user0, users0, coins, XpEarned, false);
        user == Common.Some(if merged.Some? then UserStore.WithBadge(mirrored, Saver) else mirrored))
  }

  /** The remote steps of `handleComplete` for a given award and score. */
  method CommitRun(api: Server.Api, store: UserStore.Store, coins: int, score: int) returns (outcome: Commit.Outcome)
    requires api.Valid() && store.user.Some?
    modifies api, store
    ensures api.Valid()
    ensures var id := old(store.user).value.id;
            && (outcome.Saved? <==> Commit.CoinsRefusal(old(api.users), id, coins).None?)
            && (outcome.Failed? <==> !outcome.Saved?)
            && (outcome.Failed? ==> api.users == old(api.users) && api.progress == old(api.progress)
                                    && store.user == old(store.user))
            && (outcome.Saved? ==> Committed(old(store.user).value, old(api.users), old(api.progress), coins, score,
                                             store.user, api.users, api.progress))
  {
    var id := store.user.value.id;
    var rewards := Commit.GrantRewards(api, store, coins, XpEarned, false);
    if rewards.Err? {
      return Commit.Failed(rewards.error);
    }
    var merged := Commit.SaveFirst(api, id, ModuleKey, score as real);
    if merged.Some? {
      var unlocked := Commit.UnlockBadge(api, store, Saver);
      assert unlocked.Ok?;
    }
    outcome := Commit.Saved;
  }
}
