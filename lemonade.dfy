/** "Puesto de Limonada": five days of choosing how much to invest and how
    much to expect to sell, with a random event changing each day's sales. */
module Lemonade {
  import Common
  import Server
  import UserStore
  import Progress
  import Commit

  datatype Event = Sunny | Rainy | Normal | Competition | SpecialCustomer

  const InitialMoney: real := 20.0
  const TotalDays: nat := 5
  const ModuleKey := "lemonade_stand"
  const FirstModule := "first_module"
  const Master := "lemonade_master"
  const XpEarned := 100

  /** `generateDailyEvent`, with `random` the value of `Math.random()`. */
  function DrawEvent(day: nat, random: real): (e: Event)
    ensures day == 1 ==> e == Normal
    ensures day != 1 && 0.6 <= random ==> e == Normal
    ensures e == Sunny <==> day != 1 && random < 0.2
    ensures e == SpecialCustomer <==> day != 1 && 0.5 <= random < 0.6
  {
    if day == 1 then Normal
    else if random < 0.2 then Sunny
    else if random < 0.35 then Rainy
    else if random < 0.5 then Competition
    else if random < 0.6 then SpecialCustomer
    else Normal
  }

  /** The part of `getEventInfo` that is computed with. */
  datatype EventInfo = EventInfo(modifier: real, bonus: real)

  function Info(e: Event): EventInfo {
    match e
    case Sunny => EventInfo(1.2, 0.0)
    case Rainy => EventInfo(0.7, 0.0)
    case Competition => EventInfo(0.85, 0.0)
    case SpecialCustomer => EventInfo(1.0, 10.0)
    case Normal => EventInfo(1.0, 0.0)
  }

  /** The actual sales: the expected ones times the event's modifier, plus
      its bonus. */
  function Revenue(expected: real, e: Event): real {
    expected * Info(e).modifier + Info(e).bonus
  }

  /** Sales expected to be positive are positive, and only sunny days and
      the special customer bring in more than expected. */
  lemma RevenueFacts(expected: real, e: Event)
    requires expected > 0.0
    ensures Revenue(expected, e) > 0.0
    ensures Revenue(expected, e) > expected <==> e == Sunny || e == SpecialCustomer
    ensures e == Normal ==> Revenue(expected, e) == expected
  {
  }

  datatype Day = Day(day: nat, investment: real, revenue: real, profit: real, event: Event)

  /** `daysData.reduce((sum, day) => sum + day.profit, 0)` */
  function TotalProfit(days: seq<Day>): real {
    if days == [] then 0.0 else TotalProfit(days[..|days| - 1]) + days[|days| - 1].profit
  }

  lemma TotalProfitAppend(days: seq<Day>, d: Day)
    ensures TotalProfit(days + [d]) == TotalProfit(days) + d.profit
  {
    assert (days + [d])[..|days|] == days;
  }

  /** Why an investment is refused, in the order the checks run. */
  datatype InvestError = NoInvestment | NotEnoughMoney | NoExpectedSales

  /** `calculateFinalScore`'s ladder over the profit margin in percent. */
  function FinalScore(finalMoney: real): nat {
    var margin := (finalMoney - InitialMoney) / InitialMoney * 100.0;
    if margin >= 100.0 then 100
    else if margin >= 75.0 then 90
    else if margin >= 50.0 then 80
    else if margin >= 25.0 then 70
    else if margin >= 10.0 then 60
    else 50
  }

  /** The score is one of 50, 60, ..., 100 and never drops when the final
      money grows; doubling the starting money earns the full score. */
  lemma FinalScoreLadder(m1: real, m2: real)
    requires m1 <= m2
    ensures FinalScore(m1) in {50, 60, 70, 80, 90, 100}
    ensures FinalScore(m1) <= FinalScore(m2)
    ensures FinalScore(m1) == 100 <==> m1 >= 2.0 * InitialMoney
    ensures FinalScore(m1) == 50 <==> m1 < 22.0
  {
  }

  /** The checks of `handleDayInvestment`, in order: a missing, zero or
      negative investment; one above the money at hand; missing or
      non-positive expected sales. */
  function InvestCheck(investment: Common.Option<real>, expected: Common.Option<real>, money: real)
    : (r: Common.Option<InvestError>)
    ensures investment.None? || investment.value <= 0.0 ==> r == Common.Some(NoInvestment)
    ensures investment.Some? && 0.0 < investment.value && investment.value > money ==>
              r == Common.Some(NotEnoughMoney)
    ensures investment.Some? && 0.0 < investment.value <= money && (expected.None? || expected.value <= 0.0) ==>
              r == Common.Some(NoExpectedSales)
    ensures r.None? <==> investment.Some? && 0.0 < investment.value <= money
                         && expected.Some? && expected.value > 0.0
  {
    if investment.None? || investment.value <= 0.0 then Common.Some(NoInvestment)
    else if investment.value > money then Common.Some(NotEnoughMoney)
    else if expected.None? || expected.value <= 0.0 then Common.Some(NoExpectedSales)
    else Common.None
  }

  datatype Stage = Intro | Invest | Summary

  class Game {
    var stage: Stage
    var currentDay: nat
    var money: real
    var days: seq<Day>
    var todayEvent: Common.Option<Event>
    /** The day's result modal is shown. */
    var showResult: bool
    var loading: bool

    /** The money is the starting money plus the day profits and stays
        positive; one record is kept per played day, numbered in order, and
        at most five. */
    ghost predicate Valid()
      reads this
    {
      && 1 <= currentDay <= TotalDays
      && money > 0.0
      && money == InitialMoney + TotalProfit(days)
      && (forall k | 0 <= k < |days| :: days[k].day == k + 1)
      && (stage == Intro ==> currentDay == 1 && days == [] && !showResult)
      && (stage == Invest ==> |days| == currentDay - 1 + (if showResult then 1 else 0) && todayEvent.Some?)
      && (stage == Summary ==> |days| == TotalDays && !showResult)
    }

    constructor()
      ensures Valid() && stage == Intro && money == InitialMoney && !loading
    {
      stage := Intro;
      currentDay := 1;
      money := InitialMoney;
      days := [];
      todayEvent := Common.None;
      showResult := false;
      loading := false;
    }

    /** "¡Comenzar!": the invest screen, whose effect draws day 1's event. */
    method Start(random: real)
      requires Valid() && stage == Intro
      modifies this
      ensures Valid() && stage == Invest && todayEvent == Common.Some(Normal)
      ensures money == old(money) && days == old(days) && currentDay == 1
    {
      stage := Invest;
      todayEvent := Common.Some(DrawEvent(currentDay, random));
    }

    /** `handleDayInvestment`, offered while investing with no result shown.
        `None` is an input `parseFloat` could not read. A missing, zero or
        negative investment, one above the money at hand, and missing or
        non-positive expected sales are refused in that order with nothing
        changed; otherwise the day's record is appended and the money moves
        by the day's profit. */
    method HandleDayInvestment(investment: Common.Option<real>, expected: Common.Option<real>)
      returns (err: Common.Option<InvestError>)
      requires Valid() && stage == Invest && !showResult
      modifies this
      ensures Valid()
      ensures err == InvestCheck(investment, expected, old(money))
      ensures err.Some? ==> unchanged(this)
      ensures err.None? ==>
                var inv := investment.value;
                var revenue := Revenue(expected.value, old(todayEvent).value);
                && showResult && stage == Invest && currentDay == old(currentDay)
                && days == old(days) + [Day(old(currentDay), inv, revenue, revenue - inv, old(todayEvent).value)]
                && money == old(money) - inv + revenue
    {
      err := InvestCheck(investment, expected, money);
      if err.Some? {
        return;
      }
      var inv := investment.value;
      var event := todayEvent.value;
      var revenue := Revenue(expected.value, event);
      RevenueFacts(expected.value, event);
      var record := Day(currentDay, inv, revenue, revenue - inv, event);
      TotalProfitAppend(days, record);
      days := days + [record];
      money := money - inv + revenue;
      showResult := true;
    }

    /** `handleNextDay`, the result modal's button: the next day, whose
        event the effect draws, until day five, then the summary. */
    method HandleNextDay(random: real)
      requires Valid() && stage == Invest && showResult
      modifies this
      ensures Valid() && !showResult && money == old(money) && days == old(days)
      ensures old(currentDay) < TotalDays ==>
                stage == Invest && currentDay == old(currentDay) + 1 && todayEvent == Common.Some(DrawEvent(currentDay, random))
      ensures old(currentDay) == TotalDays ==> stage == Summary && currentDay == old(currentDay)
    {
      showResult := false;
      if currentDay < TotalDays {
        currentDay := currentDay + 1;
        todayEvent := Common.Some(DrawEvent(currentDay, random));
      } else {
        stage := Summary;
      }
    }

    /** `handleComplete` as written, offered on the summary: the coins are
        `Math.floor` of the final money, then 100 xp; then, for a module not
        yet listed, the record is written with the score, `first_module` is
        unlocked when it is the only module listed, and `lemonade_master`
        always. A refused step ends the commit. */
    method Complete(api: Server.Api, store: UserStore.Store) returns (outcome: Commit.Outcome)
      requires Valid() && stage == Summary && api.Valid() && !loading
      modifies this, api, store
      ensures Valid() && stage == Summary && money == old(money) && !loading
      ensures api.Valid()
      ensures old(store.user).None? ==> outcome == Commit.Skipped && api.users == old(api.users)
                                        && api.progress == old(api.progress) && store.user == old(store.user)
      ensures old(store.user).Some? ==>
                var id := old(store.user).value.id;
                var coins := money.Floor;
                && (outcome.Saved? <==> Commit.CoinsRefusal(old(api.users), id, coins).None?)
                && (outcome.Failed? <==> !outcome.Saved?)
                && (outcome.Failed? ==> api.users == old(api.users) && api.progress == old(api.progress)
                                        && store.user == old(store.user))
                && (outcome.Saved? ==> Committed(old(store.user).value, old(api.users), old(api.progress), coins, FinalScore(money),
                                                 store.user, api.users, api.progress))
    {
      loading := true;
      outcome := CommitRun(api, store, money.Floor, FinalScore(money));
      loading := false;
    }

    /** The evidently intended commit: a run that ends with less than one
        dollar still earns one coin, so the coin award cannot be refused for
        being zero and the completion is recorded. */
    method CompleteCorrected(api: Server.Api, store: UserStore.Store) returns (outcome: Commit.Outcome)
      requires Valid() && stage == Summary && api.Valid() && !loading
      modifies this, api, store
      ensures Valid() && stage == Summary && money == old(money) && !loading
      ensures api.Valid()
      ensures old(store.user).None? ==> outcome == Commit.Skipped && api.users == old(api.users)
                                        && api.progress == old(api.progress) && store.user == old(store.user)
      ensures old(store.user).Some? ==>
                var id := old(store.user).value.id;
                var coins := CorrectedCoins(money);
                && coins >= 1
                && (outcome.Saved? <==> Server.IsObjectId(id) && id in old(api.users))
                && (outcome.Failed? <==> !outcome.Saved?)
                && (outcome.Failed? ==> api.users == old(api.users) && api.progress == old(api.progress)
                                        && store.user == old(store.user))
                && (outcome.Saved? ==> Committed(old(store.user).value, old(api.users), old(api.progress), coins, FinalScore(money),
                                                 store.user, api.users, api.progress))
    {
      loading := true;
      outcome := CommitRun(api, store, CorrectedCoins(money), FinalScore(money));
      loading := false;
    }
  }

  /** At least one coin, otherwise the floor of the final money. */
  function CorrectedCoins(finalMoney: real): (c: int)
    ensures c >= 1 && c >= finalMoney.Floor
    ensures finalMoney >= 1.0 ==> c == finalMoney.Floor
  {
    if finalMoney.Floor < 1 then 1 else finalMoney.Floor
  }

  /** The state after a commit that was accepted, for the profile `user0`
      the screen rendered with: both awards, the first-completion merge, and
      the milestone badges when it listed the module, on the server and
      mirrored in the store. */
  ghost predicate Committed(user0: UserStore.User, users0: map<string, Server.User>, progress0: map<string, Progress.Snapshot>,
                            coins: int, score: nat, user: Common.Option<UserStore.User>,
                            users: map<string, Server.User>, progress: map<string, Progress.Snapshot>)
  {
    var id := user0.id;
    var before := Commit.Read(progress0, id);
    var merged := Progress.FirstCompletion(before, ModuleKey, score as real);
    var rewarded := Commit.RewardedAt(users0, id, coins, XpEarned);
    var first := if merged.Some? && |merged.value.completed| == 1 then Commit.BadgeAt(rewarded, id, FirstModule)
                 else rewarded;
    && id in users0
    && progress == progress0[id := if merged.Some? then merged.value else before]
    && users == (if merged.Some? then Commit.BadgeAt(first, id, Master) else rewarded)
    && (var mirrored := Commit.Mirrored(user0, users0, coins, XpEarned, false);
        var firstShown := if merged.Some? && |merged.value.completed| == 1 then UserStore.WithBadge(mirrored, FirstModule)
                          else mirrored;
        user == Common.Some(if merged.Some? then UserStore.WithBadge(firstShown, Master) else mirrored))
  }

  /** The commit shared by both versions, for a given coin award. */
  method CommitRun(api: Server.Api, store: UserStore.Store, coins: int, score: nat) returns (outcome: Commit.Outcome)
    requires api.Valid()
    modifies api, store
    ensures api.Valid()
    ensures old(store.user).None? ==> outcome == Commit.Skipped && api.users == old(api.users)
                                      && api.progress == old(api.progress) && store.user == old(store.user)
    ensures old(store.user).Some? ==>
              var id := old(store.user).value.id;
              && (outcome.Saved? <==> Commit.CoinsRefusal(old(api.users), id, coins).None?)
              && (outcome.Failed? <==> !outcome.Saved?)
              && (outcome.Failed? ==> api.users == old(api.users) && api.progress == old(api.progress)
                                      && store.user == old(store.user))
              && (outcome.Saved? ==> Committed(old(store.user).value, old(api.users), old(api.progress), coins, score,
                                                 store.user, api.users, api.progress))
  {
    if store.user.None? {
      return Commit.Skipped;
    }
    var id := store.user.value.id;
    var rewards := Commit.GrantRewards(api, store, coins, XpEarned, false);
    if rewards.Err? {
      return Commit.Failed(rewards.error);
    }
    var merged := Commit.SaveFirst(api, id, ModuleKey, score as real);
    if merged.Some? {
      UnlockMilestones(api, store, |merged.value.completed| == 1);
    }
    outcome := Commit.Saved;
  }

  /** The badges of a first completion: `first_module` when it is the only
      module listed, then `lemonade_master`; neither can be refused for a
      known, well-formed id. */
  method UnlockMilestones(api: Server.Api, store: UserStore.Store, onlyModule: bool)
    requires api.Valid() && store.user.Some?
    requires Server.IsObjectId(store.user.value.id) && store.user.value.id in api.users
    modifies api, store
    ensures api.Valid() && api.progress == old(api.progress)
    ensures var id := old(store.user).value.id;
            var first := if onlyModule then Commit.BadgeAt(old(api.users), id, FirstModule) else old(api.users);
            api.users == Commit.BadgeAt(first, id, Master)
    ensures var u := old(store.user).value;
            var firstShown := if onlyModule then UserStore.WithBadge(u, FirstModule) else u;
            store.user == Common.Some(UserStore.WithBadge(firstShown, Master))
  {
    if onlyModule {
      var first := Commit.UnlockBadge(api, store, FirstModule);
      assert first.Ok?;
    }
    var master := Commit.UnlockBadge(api, store, Master);
    assert master.Ok?;
  }

  /** A run the form accepts that ends with less than one dollar: invest
      everything on day one and expect fifty cents of sales every day. Its
      coin award is zero, which the server refuses, so the as-written commit
      fails before anything is recorded. */
  method LowBalanceRun() returns (g: Game)
    ensures g.Valid() && g.stage == Summary && g.money == 0.5 && g.money.Floor == 0
    ensures forall users: map<string, Server.User>, id: string | Server.IsObjectId(id) ::
              Commit.CoinsRefusal(users, id, g.money.Floor) == Common.Some(Server.ZeroCoins)
  {
    g := new Game();
    g.Start(0.0);
    var err := g.HandleDayInvestment(Common.Some(20.0), Common.Some(0.5));
    assert err.None?;
    var day := 1;
    while day < TotalDays
      invariant 1 <= day <= TotalDays
      invariant g.Valid() && g.stage == Invest && g.showResult && g.currentDay == day && g.money == 0.5
      modifies g
    {
      g.HandleNextDay(0.9);
      err := g.HandleDayInvestment(Common.Some(0.5), Common.Some(0.5));
      day := day + 1;
    }
    g.HandleNextDay(0.9);
  }
}
