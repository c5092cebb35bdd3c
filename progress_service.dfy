/** The client's defensive reading of the reward endpoints' answers, and its
    rule for a better score. */
module ProgressService {
  import opened Common
  import Server
  import Commit

  /** A JavaScript value as far as `isNumber` can tell them apart. */
  datatype JsVal = Num(x: real) | NaN | Str(s: string) | Bool(b: bool) | Null

  /** `isNumber`: of type number and not `NaN`. */
  predicate IsNumber(v: JsVal) {
    v.Num?
  }

  /** A parsed response body; `None` is a call that threw. */
  type Response = Option<map<string, JsVal>>

  /** `res?.key`, `None` for `undefined`. */
  function Get(res: Response, key: string): Option<JsVal> {
    if res.Some? && key in res.value then Some(res.value[key]) else None
  }

  predicate NumberAt(res: Response, key: string) {
    Get(res, key).Some? && IsNumber(Get(res, key).value)
  }

  /** The nested conditional of `awardCoinsXP`: the first field when it is
      a number, else the second when it is one, else nothing. */
  function Select(res: Response, first: string, second: string): (r: Option<real>)
    ensures r.Some? <==> NumberAt(res, first) || NumberAt(res, second)
    ensures NumberAt(res, first) ==> r == Some(Get(res, first).value.x)
    ensures !NumberAt(res, first) && NumberAt(res, second) ==> r == Some(Get(res, second).value.x)
  {
    if NumberAt(res, first) then Some(Get(res, first).value.x)
    else if NumberAt(res, second) then Some(Get(res, second).value.x)
    else None
  }

  /** What `add_coins` answers, or a throw when it refuses. */
  function CoinsResponse(r: Result<int, Server.ApiError>): Response {
    if r.Ok? then Some(map["success" := Bool(true), "new_total" := Num(r.value as real)]) else None
  }

  /** What `add_xp` answers, or a throw when it refuses. */
  function XpResponse(r: Result<Server.XpAnswer, Server.ApiError>): Response {
    if r.Ok? then
      Some(map["success" := Bool(true), "new_xp" := Num(r.value.newXp as real),
               "new_level" := Num(r.value.newLevel as real), "level_up" := Bool(r.value.levelUp),
               "bonus_coins" := Num(r.value.bonusCoins as real), "total_coins" := Num(r.value.totalCoins as real)])
    else None
  }

  /** Against this server the fallbacks find the coin total under
      `new_total` and the xp under `new_xp`; a refused call yields
      nothing. */
  lemma SelectServerAnswers(c: Result<int, Server.ApiError>, x: Result<Server.XpAnswer, Server.ApiError>)
    ensures Select(CoinsResponse(c), "new_coins", "new_total") == (if c.Ok? then Some(c.value as real) else None)
    ensures Select(XpResponse(x), "new_xp", "new_total") == (if x.Ok? then Some(x.value.newXp as real) else None)
    ensures x.Ok? ==> NumberAt(XpResponse(x), "new_level")
  {
    if c.Ok? {
      assert !NumberAt(CoinsResponse(c), "new_coins");
      assert Get(CoinsResponse(c), "new_total") == Some(Num(c.value as real));
    }
    if x.Ok? {
      assert Get(XpResponse(x), "new_xp") == Some(Num(x.value.newXp as real));
    }
  }

  /** The record `awardCoinsXP` returns. */
  datatype Awarded = Awarded(coins: Option<real>, xp: Option<real>, level: Option<real>)

  /** The first `try` of `awardCoinsXP`: the coin call and the value it
      yields. */
  method CoinsStep(api: Server.Api, userId: string, coins: int) returns (nc: Option<real>)
    requires api.Valid()
    modifies api
    ensures api.Valid() && api.progress == old(api.progress)
    ensures api.users == Commit.PaidAt(old(api.users), userId, coins)
    ensures nc == (if Commit.CoinsRefusal(old(api.users), userId, coins).None?
                   then Some((old(api.users)[userId].coins + coins) as real) else None)
  {
    var c := api.AddCoins(userId, coins);
    SelectServerAnswers(c, Err(Server.NonPositiveXp));
    nc := Select(CoinsResponse(c), "new_coins", "new_total");
  }

  /** The second `try`: the xp call, the xp it yields and the level read
      beside it. */
  method XpStep(api: Server.Api, userId: string, xp: int) returns (nxp: Option<real>, level: Option<real>)
    requires api.Valid()
    modifies api
    ensures api.Valid() && api.progress == old(api.progress)
    ensures api.users == Commit.XpAt(old(api.users), userId, xp)
    ensures nxp.Some? <==> Commit.XpAccepted(old(api.users), userId, xp)
    ensures nxp.Some? ==>
              var g := Server.GainXp(old(api.users)[userId].xp, xp);
              nxp == Some(g.newXp as real) && level == Some(g.newLevel as real)
  {
    var x := api.AddXp(userId, xp);
    var xpRes := XpResponse(x);
    SelectServerAnswers(Err(Server.ZeroCoins), x);
    nxp := Select(xpRes, "new_xp", "new_total");
    level := if NumberAt(xpRes, "new_level") then Some(Get(xpRes, "new_level").value.x) else None;
  }

  /** `awardCoinsXP`: the coin call and the xp call are each in their own
      `try`, so a refused coin award leaves its field empty and does not
      keep the xp call from running; the level is recorded only together
      with an xp value. */
  method AwardCoinsXp(api: Server.Api, userId: string, coins: int, xp: int) returns (results: Awarded)
    requires api.Valid()
    modifies api
    ensures api.Valid() && api.progress == old(api.progress)
    ensures api.users == Commit.XpAt(Commit.PaidAt(old(api.users), userId, coins), userId, xp)
    ensures results.coins == (if Commit.CoinsRefusal(old(api.users), userId, coins).None?
                              then Some((old(api.users)[userId].coins + coins) as real) else None)
    ensures results.xp.Some? <==> Commit.XpAccepted(old(api.users), userId, xp)
    ensures results.level.Some? <==> results.xp.Some?
    ensures results.xp.Some? ==>
              var g := Server.GainXp(old(api.users)[userId].xp, xp);
              results.xp == Some(g.newXp as real) && results.level == Some(g.newLevel as real)
  {
    results := Awarded(None, None, None);
    var nc := CoinsStep(api, userId, coins);
    if nc.Some? {
      results := results.(coins := nc);
    }
    ghost var between := api.users;
    assert userId in between ==> between[userId].xp == old(api.users)[userId].xp;
    var nxp, level := XpStep(api, userId, xp);
    if nxp.Some? {
      results := results.(xp := nxp, level := level);
    }
  }

  /** The `correct`/`total` pair a module's score is kept as. */
  datatype ModuleScore = ModuleScore(correct: int, total: int)

  /** `isBetterScore`: any score beats a missing or non-numeric previous
      best; otherwise only a strictly higher count of right answers does. */
  function IsBetterScore(prevBest: Option<JsVal>, now: ModuleScore): (r: bool)
    ensures prevBest.None? || !IsNumber(prevBest.value) ==> r
    ensures prevBest.Some? && IsNumber(prevBest.value) ==> (r <==> now.correct as real > prevBest.value.x)
  {
    if prevBest.None? || !IsNumber(prevBest.value) then true
    else now.correct as real > prevBest.value.x
  }

  /** An equal score is not better, so replaying a module with the same
      result never replaces its best; and being better is transitive. */
  lemma BetterIsStrict(c: int, t: int, a: ModuleScore, b: ModuleScore)
    ensures !IsBetterScore(Some(Num(c as real)), ModuleScore(c, t))
    ensures IsBetterScore(Some(Num(c as real)), a) && IsBetterScore(Some(Num(a.correct as real)), b) ==>
              IsBetterScore(Some(Num(c as real)), b)
  {
  }
}
