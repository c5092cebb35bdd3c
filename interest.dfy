/** "Interés Simple": a calculator that tabulates simple interest year by
    year, then a comparison with compound interest. */
module Interest {
  import Common
  import Server
  import UserStore
  import Progress
  import Commit

  const MaxYears: int := 10
  const ModuleKey := "simple_interest"
  const FixedScore := 100
  const CoinsEarned := 40
  const XpEarned := 80

  datatype Year = Year(year: nat, balance: real, interest: real)

  /** The row of a year: the interest earned up to it on principal `p` at
      yearly rate `r`, and the balance with it. */
  function Row(p: real, r: real, year: nat): Year {
    Year(year, p + p * r * year as real, p * r * year as real)
  }

  /** With a positive principal and rate the balance grows strictly from
      year to year and is always above the principal. */
  lemma RowsIncrease(p: real, r: real, i: nat, j: nat)
    requires p > 0.0 && r > 0.0 && 1 <= i < j
    ensures Row(p, r, i).balance > p
    ensures Row(p, r, i).balance < Row(p, r, j).balance
    ensures Row(p, r, j).interest - Row(p, r, i).interest == p * r * (j - i) as real
  {
    var pr := p * r;
    assert pr > 0.0;
    assert pr * i as real > 0.0;
    assert pr * j as real - pr * i as real == pr * (j - i) as real;
    assert pr * (j - i) as real > 0.0;
  }

  /** Why the calculator refuses its inputs. */
  datatype CalcError = InvalidValues

  /** The calculator's inputs are usable: a positive principal and rate
      and 1 to 10 years. */
  predicate ValidInputs(principal: Common.Option<real>, ratePercent: Common.Option<real>, years: Common.Option<int>) {
    && principal.Some? && principal.value > 0.0
    && ratePercent.Some? && ratePercent.value > 0.0
    && years.Some? && 1 <= years.value <= MaxYears
  }

  /** The table of the first `n` years. */
  ghost predicate IsTable(rows: seq<Year>, p: real, r: real, n: nat) {
    && |rows| == n
    && (forall k | 0 <= k < |rows| :: rows[k] == Row(p, r, k + 1))
  }

  /** The balances of a table increase strictly from row to row. */
  ghost predicate Increasing(rows: seq<Year>) {
    forall i, j | 0 <= i < j < |rows| :: rows[i].balance < rows[j].balance
  }

  /** The loop of `calculateSimpleInterest`: one row per year in order. */
  method Tabulate(p: real, r: real, t: nat) returns (rows: seq<Year>)
    requires p > 0.0 && r > 0.0
    ensures IsTable(rows, p, r, t) && Increasing(rows)
  {
    rows := [];
    var year := 1;
    while year <= t
      invariant 1 <= year <= t + 1
      invariant IsTable(rows, p, r, year - 1)
      invariant Increasing(rows)
    {
      var interest := p * r * year as real;
      var balance := p + interest;
      forall i | 0 <= i < |rows|
        ensures rows[i].balance < balance
      {
        RowsIncrease(p, r, i + 1, year);
      }
      rows := rows + [Year(year, balance, interest)];
      year := year + 1;
    }
  }

  datatype Stage = Intro | Calculator | Comparison

  class Game {
    var stage: Stage
    var simpleTable: seq<Year>
    var loading: bool

    predicate Valid()
      reads this
    {
      |simpleTable| <= MaxYears && (stage == Intro ==> simpleTable == [])
    }

    constructor()
      ensures Valid() && stage == Intro && simpleTable == [] && !loading
    {
      stage := Intro;
      simpleTable := [];
      loading := false;
    }

    /** "¡Comenzar!" */
    method Start()
      requires Valid() && stage == Intro
      modifies this
      ensures Valid() && stage == Calculator && simpleTable == []
    {
      stage := Calculator;
    }

    /** `calculateSimpleInterest`: `principal` and `ratePercent` are what
        `parseFloat` reads, `years` what `parseInt` reads, `None` when they
        read nothing. A missing or non-positive principal or rate, or a
        number of years outside 1 to 10, is refused with nothing changed;
        otherwise the table has one row per year, 1 to `years` in order, and
        its balance grows strictly. */
    method CalculateSimpleInterest(principal: Common.Option<real>, ratePercent: Common.Option<real>,
                                   years: Common.Option<int>) returns (err: Common.Option<CalcError>)
      requires Valid() && stage == Calculator
      modifies this
      ensures Valid()
      ensures err.None? <==> ValidInputs(principal, ratePercent, years)
      ensures err.Some? ==> unchanged(this)
      ensures err.None? ==>
                var p := principal.value;
                var r := ratePercent.value / 100.0;
                && stage == Calculator
                && IsTable(simpleTable, p, r, years.value)
                && Increasing(simpleTable)
    {
      if principal.None? || principal.value <= 0.0 || ratePercent.None? || ratePercent.value / 100.0 <= 0.0
         || years.None? || years.value <= 0 || years.value > MaxYears
      {
        return Common.Some(InvalidValues);
      }
      var p := principal.value;
      var r := ratePercent.value / 100.0;
      var t := years.value;
      var rows := Tabulate(p, r, t);
      simpleTable := rows;
      stage := Calculator;
      err := Common.None;
    }

    /** `showComparison` (its compound table is not part of this model). */
    method ShowComparison()
      requires Valid() && stage == Calculator
      modifies this
      ensures Valid() && stage == Comparison && simpleTable == old(simpleTable)
    {
      stage := Comparison;
    }

    /** `handleComplete`, offered on the comparison screen: 40 coins and
        80 xp, then, if the module is not yet listed, it is written with the
        fixed score 100. A refused step ends the commit. */
    method Complete(api: Server.Api, store: UserStore.Store) returns (outcome: Commit.Outcome)
      requires Valid() && stage == Comparison && api.Valid() && !loading
      modifies this, api, store
      ensures Valid() && stage == Comparison && !loading
      ensures api.Valid()
      ensures old(store.user).None? ==> outcome == Commit.Skipped && api.users == old(api.users)
                                        && api.progress == old(api.progress) && store.user == old(store.user)
      ensures old(store.user).Some? ==>
                var id := old(store.user).value.id;
                var before := Commit.Read(old(api.progress), id);
                var merged := Progress.FirstCompletion(before, ModuleKey, FixedScore as real);
                && (outcome.Saved? <==> Commit.CoinsRefusal(old(api.users), id, CoinsEarned).None?)
                && (outcome.Failed? <==> !outcome.Saved?)
                && (outcome.Failed? ==> api.users == old(api.users) && api.progress == old(api.progress)
                                        && store.user == old(store.user))
                && (outcome.Saved? ==>
                      && api.users == Commit.RewardedAt(old(api.users), id, CoinsEarned, XpEarned)
                      && store.user == Common.Some(Commit.Mirrored(old(store.user).value, old(api.users), CoinsEarned, XpEarned, false))
                      && api.progress == old(api.progress)[id := if merged.Some? then merged.value else before]
                      && (ModuleKey in before.completed ==> api.progress[id] == before)
                      && (ModuleKey !in before.completed ==>
                            && api.progress[id].total == before.total + 100.0
                            && api.progress[id].scores == before.scores[ModuleKey := 100.0]))
    {
      if store.user.None? {
        return Commit.Skipped;
      }
      var id := store.user.value.id;
      loading := true;
      var rewards := Commit.GrantRewards(api, store, CoinsEarned, XpEarned, false);
      if rewards.Err? {
        loading := false;
        return Commit.Failed(rewards.error);
      }
      var merged := Commit.SaveFirst(api, id, ModuleKey, FixedScore as real);
      loading := false;
      outcome := Commit.Saved;
    }
  }
}
