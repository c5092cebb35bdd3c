/** The progress record shared by the server and the games, and the three
    ways the games merge a finished run into it. */
module Progress {
  import opened Common

  /** `{completed_modules, module_scores, total_score}`. Scores are real
      because one game stores an unrounded percentage. */
  datatype Snapshot = Snapshot(completed: seq<string>, scores: map<string, real>, total: real)

  /** The record created for a new user and the one a game falls back to
      when it cannot read the stored one. */
  const Empty := Snapshot([], map[], 0.0)

  /** `Number(scores[key] || 0)`: a missing score reads as 0. */
  function Stored(scores: map<string, real>, key: string): real {
    if key in scores then scores[key] else 0.0
  }

  /** The sum of the stored scores of the modules in `keys`. */
  function Sum(keys: seq<string>, scores: map<string, real>): real {
    if keys == [] then 0.0 else Sum(keys[..|keys| - 1], scores) + Stored(scores, keys[|keys| - 1])
  }

  /** What every merge is meant to keep: each module is listed once and the
      total is the sum of the listed modules' scores. */
  ghost predicate Consistent(s: Snapshot) {
    NoDup(s.completed) && s.total == Sum(s.completed, s.scores)
  }

  lemma EmptyConsistent()
    ensures Consistent(Empty)
  {
  }

  /** Changing the score of a module that is not listed leaves the sum alone. */
  lemma {:induction false} SumUpdateAbsent(keys: seq<string>, scores: map<string, real>, key: string, v: real)
    requires key !in keys
    ensures Sum(keys, scores[key := v]) == Sum(keys, scores)
  {
    if keys != [] {
      SumUpdateAbsent(keys[..|keys| - 1], scores, key, v);
    }
  }

  /** Changing the score of a module listed exactly once moves the sum by the
      difference. */
  lemma {:induction false} SumUpdatePresent(keys: seq<string>, scores: map<string, real>, key: string, v: real)
    requires NoDup(keys) && key in keys
    ensures Sum(keys, scores[key := v]) == Sum(keys, scores) - Stored(scores, key) + v
  {
    var init := keys[..|keys| - 1];
    assert NoDup(init);
    if keys[|keys| - 1] == key {
      assert key !in init;
      SumUpdateAbsent(init, scores, key, v);
    } else {
      assert key in init;
      SumUpdatePresent(init, scores, key, v);
    }
  }

  /** Appending a module adds its score to the sum. */
  lemma SumAppend(keys: seq<string>, scores: map<string, real>, key: string)
    ensures Sum(keys + [key], scores) == Sum(keys, scores) + Stored(scores, key)
  {
    assert (keys + [key])[..|keys|] == keys;
  }

  /** Lists a newly completed module with its score. */
  function Complete(s: Snapshot, key: string, score: real): Snapshot
    requires key !in s.completed
  {
    Snapshot(s.completed + [key], s.scores[key := score], s.total + score)
  }

  lemma CompletePreserves(s: Snapshot, key: string, score: real)
    requires key !in s.completed && Consistent(s)
    ensures Consistent(Complete(s, key, score))
    ensures Stored(Complete(s, key, score).scores, key) == score
  {
    SumAppend(s.completed, s.scores[key := score], key);
    SumUpdateAbsent(s.completed, s.scores, key, score);
  }

  /** The result of a best-score merge: the record to send and whether it
      differs from the one read. */
  datatype Merge = Merge(snapshot: Snapshot, changed: bool)

  /** Best score wins: a new module is listed with its score; a listed one
      takes the new score only when it is strictly higher than the stored
      one, and the total moves by the difference. */
  function BestScore(s: Snapshot, key: string, score: real): (m: Merge)
    ensures key in m.snapshot.completed
    ensures key !in s.completed ==> m.changed && m.snapshot.completed == s.completed + [key]
                                    && Stored(m.snapshot.scores, key) == score
                                    && m.snapshot.total == s.total + score
    ensures key in s.completed && score > Stored(s.scores, key) ==>
              m.changed && m.snapshot.completed == s.completed
              && m.snapshot.scores == s.scores[key := score]
              && m.snapshot.total == s.total - Stored(s.scores, key) + score
    ensures key in s.completed && score <= Stored(s.scores, key) ==> !m.changed && m.snapshot == s
  {
    var prev := Stored(s.scores, key);
    if key !in s.completed then Merge(Complete(s, key, score), true)
    else if score > prev then Merge(Snapshot(s.completed, s.scores[key := score], s.total - prev + score), true)
    else Merge(s, false)
  }

  /** A best-score merge keeps the record consistent, never lowers the
      stored score of a listed module, and leaves other modules alone. */
  lemma BestScorePreserves(s: Snapshot, key: string, score: real)
    requires Consistent(s)
    ensures Consistent(BestScore(s, key, score).snapshot)
    ensures key in s.completed ==>
              Stored(BestScore(s, key, score).snapshot.scores, key) ==
              (if score > Stored(s.scores, key) then score else Stored(s.scores, key))
    ensures forall k | k != key :: Stored(BestScore(s, key, score).snapshot.scores, k) == Stored(s.scores, k)
  {
    if key !in s.completed {
      CompletePreserves(s, key, score);
    } else if score > Stored(s.scores, key) {
      SumUpdatePresent(s.completed, s.scores, key, score);
    }
  }

  /** Replaying the same score merges nothing the second time. */
  lemma BestScoreIdempotent(s: Snapshot, key: string, score: real)
    ensures var once := BestScore(s, key, score).snapshot;
            BestScore(once, key, score) == Merge(once, false)
  {
  }

  /** Write only on first completion: `None` when the module is already
      listed, so nothing is sent. */
  function FirstCompletion(s: Snapshot, key: string, score: real): (r: Option<Snapshot>)
    ensures r.None? <==> key in s.completed
    ensures r.Some? ==> r.value.completed == s.completed + [key]
                        && r.value.scores == s.scores[key := score]
                        && r.value.total == s.total + score
  {
    if key in s.completed then None else Some(Complete(s, key, score))
  }

  /** A first-completion merge keeps the record consistent, and a second
      one with any score writes nothing. */
  lemma FirstCompletionPreserves(s: Snapshot, key: string, score: real, again: real)
    requires Consistent(s)
    ensures FirstCompletion(s, key, score).Some? ==> Consistent(FirstCompletion(s, key, score).value)
    ensures FirstCompletion(s, key, score).Some? ==> FirstCompletion(FirstCompletion(s, key, score).value, key, again).None?
  {
    if key !in s.completed {
      CompletePreserves(s, key, score);
    }
  }

  /** Always add, as the piggy-bank game writes it: the module is listed at
      most once and its score overwritten, but the score is added to the
      total on every run. */
  function AlwaysAdd(s: Snapshot, key: string, score: real): (r: Snapshot)
    ensures r.completed == SetInsert(s.completed, key)
    ensures r.scores == s.scores[key := score]
    ensures r.total == s.total + score
  {
    Snapshot(SetInsert(s.completed, key), s.scores[key := score], s.total + score)
  }

  /** On a replay the total no longer matches the listed scores. */
  lemma AlwaysAddDrifts()
    ensures var s := Snapshot(["piggy_bank"], map["piggy_bank" := 100.0], 100.0);
            Consistent(s) && !Consistent(AlwaysAdd(s, "piggy_bank", 100.0))
  {
    var s := Snapshot(["piggy_bank"], map["piggy_bank" := 100.0], 100.0);
    assert Sum(s.completed, s.scores) == 100.0 by {
      assert s.completed[..0] == [];
    }
    var r := AlwaysAdd(s, "piggy_bank", 100.0);
    assert r.completed == s.completed;
    assert Sum(r.completed, r.scores) == 100.0 by {
      assert r.completed[..0] == [];
    }
  }

  /** The evidently intended overwrite: the score is replaced and the total
      moves by the difference from the stored one. */
  function Overwrite(s: Snapshot, key: string, score: real): (r: Snapshot)
    ensures r.completed == SetInsert(s.completed, key)
    ensures r.scores == s.scores[key := score]
  {
    if key in s.completed then Snapshot(s.completed, s.scores[key := score], s.total - Stored(s.scores, key) + score)
    else Complete(s, key, score)
  }

  /** The overwrite keeps the record consistent and stores the new score. */
  lemma OverwritePreserves(s: Snapshot, key: string, score: real)
    requires Consistent(s)
    ensures Consistent(Overwrite(s, key, score))
    ensures Stored(Overwrite(s, key, score).scores, key) == score
  {
    if key in s.completed {
      SumUpdatePresent(s.completed, s.scores, key, score);
    } else {
      CompletePreserves(s, key, score);
    }
  }

  /** Replaying the overwrite with the same score changes nothing more. */
  lemma OverwriteIdempotent(s: Snapshot, key: string, score: real)
    ensures Overwrite(Overwrite(s, key, score), key, score) == Overwrite(s, key, score)
  {
    var once := Overwrite(s, key, score);
    assert key in once.completed;
    assert Stored(once.scores, key) == score;
    assert once.scores[key := score] == once.scores;
  }
}
