/** "La Alcancía": an eight-page story about saving, then a three-question
    quiz about it. */
module PiggyBank {
  import opened Common
  import Server
  import UserStore
  import Progress
  import Commit

  datatype Stage = Story | Quiz | Summary

  const Final := Stage.Summary

  const StoryPages: nat := 8

  /** The index of the right option of each question (each has three). */
  const Answers: seq<nat> := [1, 1, 1]

  const ModuleKey := "piggy_bank"
  const CoinsEarned := 20
  const XpEarned := 55

  datatype Stats = Stats(correct: nat, total: nat)

  /** The record `handleComplete` reads: the stored one, or the empty one
      when the read fails. */
  function Read(progress: map<string, Progress.Snapshot>, id: string, fetchFails: bool): Progress.Snapshot {
    if fetchFails then Progress.Empty else Commit.Read(progress, id)
  }

  /** The piggy-bank merge, as written or corrected. */
  function Merged(s: Progress.Snapshot, score: real, corrected: bool): Progress.Snapshot {
    if corrected then Progress.Overwrite(s, ModuleKey, score) else Progress.AlwaysAdd(s, ModuleKey, score)
  }

  /** Reads the record (unless the read fails) and writes back the merge. */
  method SaveMerged(api: Server.Api, id: string, fetchFails: bool, score: real, corrected: bool)
    requires api.Valid() && id != ""
    modifies api
    ensures api.Valid() && api.users == old(api.users)
    ensures api.progress == old(api.progress)[id := Merged(Read(old(api.progress), id, fetchFails), score, corrected)]
  {
    var read := Progress.Empty;
    if !fetchFails {
      var current := api.GetProgress(id);
      assert current.Ok?;
      read := current.value;
    }
    var created := api.UpdateProgress(id, Merged(read, score, corrected));
  }

  class Game {
    var stage: Stage
    var page: nat
    var questionIndex: nat
    var selected: Option<nat>
    /** `correctRef`, mirrored into the displayed `correctCount`. */
    var correct: nat
    var correctCount: nat
    var answeredCount: nat
    var finalStats: Option<Stats>
    var locked: bool
    var loading: bool
    /** "Progreso guardado" is shown. */
    var done: bool
    /** The 600 ms step of an answer is scheduled. */
    var pending: bool
    var mounted: bool

    /** Each answered question is counted once and at most once as right;
        the lock, the selection and a scheduled step go together while
        mounted; the summary holds the final counts. */
    ghost predicate Valid()
      reads this
    {
      && page < StoryPages && questionIndex < |Answers|
      && correctCount == correct
      && (locked <==> selected.Some?)
      && (pending ==> locked)
      && (locked ==> stage == Quiz)
      && (locked && mounted ==> pending)
      && (stage == Story ==> questionIndex == 0 && answeredCount == 0 && correct == 0 && finalStats.None?)
      && (stage == Quiz ==> answeredCount == questionIndex + (if locked then 1 else 0)
                            && correct <= answeredCount && finalStats.None?)
      && (stage == Final ==> answeredCount == |Answers| && correct <= |Answers|
                               && finalStats == Some(Stats(correct, |Answers|)))
    }

    constructor()
      ensures Valid() && stage == Story && page == 0 && mounted && !loading && !done
    {
      stage := Story;
      page := 0;
      questionIndex := 0;
      selected := None;
      correct := 0;
      correctCount := 0;
      answeredCount := 0;
      finalStats := None;
      locked := false;
      loading := false;
      done := false;
      pending := false;
      mounted := true;
    }

    /** `handleNextPage`, offered during the story: the next page until the
        last one, then the quiz. */
    method HandleNextPage()
      requires Valid() && stage == Story
      modifies this
      ensures Valid()
      ensures old(page) < StoryPages - 1 ==> stage == Story && page == old(page) + 1
      ensures old(page) == StoryPages - 1 ==> stage == Quiz && page == old(page) && questionIndex == 0
    {
      if page < StoryPages - 1 {
        page := page + 1;
      } else {
        stage := Quiz;
      }
    }

    /** The quiz's `handleAnswer`: ignored while locked; otherwise it locks,
        shows the choice, counts one more answer, counts it as right when it
        is the question's right option, and schedules the step. */
    method HandleAnswer(index: nat)
      requires Valid() && stage == Quiz && mounted
      modifies this
      ensures Valid()
      ensures old(locked) ==> unchanged(this)
      ensures !old(locked) ==> && locked && pending && selected == Some(index)
                               && questionIndex == old(questionIndex) && stage == Quiz
                               && answeredCount == old(answeredCount) + 1
                               && correct == old(correct) + (if index == Answers[old(questionIndex)] then 1 else 0)
    {
      if locked {
        return;
      }
      locked := true;
      selected := Some(index);
      answeredCount := answeredCount + 1;
      if index == Answers[questionIndex] {
        correct := correct + 1;
        correctCount := correct;
      }
      pending := true;
    }

    /** The timer firing. Unmounted, it does nothing. Otherwise it releases
        the lock and the selection and moves to the next question, or
        after the last one records the final counts and shows the summary.
        (The code adds one to the answer count its closure captured before
        the answer was counted; the model's counter already includes it.) */
    method Fire()
      requires Valid() && pending
      modifies this
      ensures Valid() && !pending && correct == old(correct)
      ensures !old(mounted) ==> stage == old(stage) && questionIndex == old(questionIndex) && locked
      ensures old(mounted) && old(questionIndex) < |Answers| - 1 ==>
                !locked && stage == Quiz && questionIndex == old(questionIndex) + 1
      ensures old(mounted) && old(questionIndex) == |Answers| - 1 ==>
                !locked && stage == Final && finalStats == Some(Stats(correct, |Answers|))
    {
      pending := false;
      if !mounted {
        return;
      }
      selected := None;
      locked := false;
      if questionIndex < |Answers| - 1 {
        questionIndex := questionIndex + 1;
      } else {
        finalStats := Some(Stats(correct, answeredCount));
        stage := Final;
      }
    }

    method Unmount()
      requires Valid()
      modifies this
      ensures Valid() && !mounted && pending == old(pending)
      ensures stage == old(stage) && correct == old(correct)
    {
      mounted := false;
    }

    /** `Math.round(correct / 3 * 100)` with the recorded count, or the
        running one when none was recorded. */
    function Score(): nat
      reads this
    {
      RoundPercent(if finalStats.Some? then finalStats.value.correct else correct, |Answers|)
    }

    /** `handleComplete` as written, offered on the summary: ignored without
        a user or while saving; award 20 coins and 55 xp; read the record,
        or take the empty one when `fetchFails` (the read's `.catch`); then
        always write it with the module listed once, its score overwritten
        and the score added to the total. Any refused step ends the commit,
        and the screen shows "guardado" either way. */
    method Complete(api: Server.Api, store: UserStore.Store, fetchFails: bool) returns (outcome: Commit.Outcome)
      requires Valid() && stage == Final && api.Valid()
      modifies this, api, store
      ensures Valid() && stage == Final && correct == old(correct)
      ensures api.Valid()
      ensures old(store.user).None? || old(loading) ==> outcome == Commit.Skipped && api.users == old(api.users)
                                                        && api.progress == old(api.progress) && store.user == old(store.user)
      ensures old(store.user).Some? && !old(loading) ==>
                var id := old(store.user).value.id;
                var read := Read(old(api.progress), id, fetchFails);
                && done && !loading
                && (outcome.Saved? <==> Commit.CoinsRefusal(old(api.users), id, CoinsEarned).None?)
                && (outcome.Failed? <==> !outcome.Saved?)
                && (outcome.Failed? ==> api.users == old(api.users) && api.progress == old(api.progress)
                                        && store.user == old(store.user))
                && (outcome.Saved? ==>
                      && api.users == Commit.RewardedAt(old(api.users), id, CoinsEarned, XpEarned)
                      && store.user == Some(Commit.Mirrored(old(store.user).value, old(api.users), CoinsEarned, XpEarned, false))
                      && api.progress == old(api.progress)[id := Progress.AlwaysAdd(read, ModuleKey, Score() as real)])
    {
      if store.user.None? || loading {
        return Commit.Skipped;
      }
      ghost var score := Score();
      var id := store.user.value.id;
      loading := true;
      var rewards := Commit.GrantRewards(api, store, CoinsEarned, XpEarned, false);
      if rewards.Err? {
        done := true;
        loading := false;
        return Commit.Failed(rewards.error);
      }
      ghost var shown := store.user;
      SaveMerged(api, id, fetchFails, Score() as real, false);
      assert store.user == shown;
      done := true;
      loading := false;
      outcome := Commit.Saved;
    }

    /** The same commit with the evidently intended merge: the stored score
        is replaced and the total moves by the difference, so a replay keeps
        the record consistent. */
    method CompleteCorrected(api: Server.Api, store: UserStore.Store, fetchFails: bool) returns (outcome: Commit.Outcome)
      requires Valid() && stage == Final && api.Valid()
      modifies this, api, store
      ensures Valid() && stage == Final && correct == old(correct)
      ensures api.Valid()
      ensures old(store.user).None? || old(loading) ==> outcome == Commit.Skipped && api.users == old(api.users)
                                                        && api.progress == old(api.progress) && store.user == old(store.user)
      ensures old(store.user).Some? && !old(loading) ==>
                var id := old(store.user).value.id;
                var read := Read(old(api.progress), id, fetchFails);
                && done && !loading
                && (outcome.Saved? <==> Commit.CoinsRefusal(old(api.users), id, CoinsEarned).None?)
                && (outcome.Failed? <==> !outcome.Saved?)
                && (outcome.Failed? ==> api.users == old(api.users) && api.progress == old(api.progress)
                                        && store.user == old(store.user))
                && (outcome.Saved? ==>
                      && api.users == Commit.RewardedAt(old(api.users), id, CoinsEarned, XpEarned)
                      && store.user == Some(Commit.Mirrored(old(store.user).value, old(api.users), CoinsEarned, XpEarned, false))
                      && api.progress == old(api.progress)[id := Progress.Overwrite(read, ModuleKey, Score() as real)]
                      && (Progress.Consistent(read) ==> Progress.Consistent(api.progress[id])))
    {
      if store.user.None? || loading {
        return Commit.Skipped;
      }
      ghost var score := Score();
      var id := store.user.value.id;
      loading := true;
      var rewards := Commit.GrantRewards(api, store, CoinsEarned, XpEarned, false);
      if rewards.Err? {
        done := true;
        loading := false;
        return Commit.Failed(rewards.error);
      }
      ghost var shown := store.user;
      SaveMerged(api, id, fetchFails, Score() as real, true);
      assert store.user == shown;
      if Progress.Consistent(Read(old(api.progress), id, fetchFails)) {
        Progress.OverwritePreserves(Read(old(api.progress), id, fetchFails), ModuleKey, score as real);
      }
      done := true;
      loading := false;
      outcome := Commit.Saved;
    }
  }

  /** The quiz's score is one of 0, 33, 67 and 100. */
  lemma ScoreTable(correct: nat)
    requires correct <= |Answers|
    ensures RoundPercent(correct, |Answers|) == [0, 33, 67, 100][correct]
  {
    RoundPercentFacts(correct, 3);
  }
}
