# FinaKiHub core, modelled in Dafny

FinaKiHub is a financial-literacy app for children. A FastAPI back end
keeps one user document per child: coins, xp, badges, purchased and
equipped avatar items, and the chosen school level. Beside each user it
keeps one progress record: the completed modules, the score of each, and
a total. The client is a React Native app. Its mini-games each end in a
`handleComplete`, which awards coins and xp on the server, mirrors them in
a local profile store, and then merges the game's score into the progress
record.

The model has these parts:

- **The server** (`Server`). The two document collections are two maps
  held by the class `Server.Api`. Each endpoint is a method whose
  contract states its refusals, in the order the code checks them, and
  the exact new state. The level formula, the xp level-up bonus and the
  shop category names are pure functions with lemmas about them.
- **The profile store** (`UserStore`). A class with one `user` slot;
  every action replaces the slot. Adding a badge or a purchased item is
  a set insert.
- **The shared commit steps** (`Commit`). Award the coins, award the xp,
  mirror both, unlock a badge, and write a first completion. Each step
  is tied to map-level functions: `PaidAt`, `XpAt`, `RewardedAt` and
  `BadgeAt`.
- **The three merge policies** (`Progress`). Best score wins, write on
  first completion only, and always add. The invariant the games are
  meant to keep is `Consistent`: each module is listed once, and the
  total is the sum of the listed scores.
- **Eight mini-games.** Each is a class whose fields are the screen's
  state and whose methods are its handlers. Timers appear as a
  `pending` flag and a `Fire` method. Every random draw is a parameter.
  Each game's `Complete` is proved against the server state it leaves.
- **The client helpers.** The defensive reading of the award responses
  (`ProgressService`), the level state kept in the store and on the
  device (`LevelState`), the one-slot timer hook (`Timeout`), the
  avatar's reading of equipped items (`Avatar`), the Fisher-Yates shuffle
  (`Shuffle`), and the string operations they use (`Text`).

Three behaviours of the code are easy to misread:

- **Which coin total the store takes.** The client copy of the profile
  takes the coin balance the screen rendered with plus the award
  (`user.coins + coinsEarned`, frontend/app/game/savings.tsx:132), not
  the server's total. The debt game is the exception: it prefers
  `new_total` (frontend/app/game/debt.tsx:143). `Commit.AwardCoins`
  carries this as its `fromServer` flag.
- **A zero xp award.** The server refuses it, because xp must be
  positive (backend/server.py:712-713). It is not a no-op.
- **The piggy-bank total.** The piggy-bank game adds the score to the
  total on every run while it overwrites the module's score
  (frontend/app/game/inicial/piggy-bank.tsx:153-154). The total then
  stops being the sum of the scores (see Findings).

## Model

| member | source | states |
|---|---|---|
| Server.LevelFromXp | backend/server.py:162-163 | the level is never below 1 |
| Server.LevelBand | backend/server.py:162-163 | for non-negative xp the level is the hundreds band xp falls in: 100·(level−1) ≤ xp < 100·level |
| Server.LevelMonotone | backend/server.py:162-163 | more xp never gives a lower level |
| Server.GainXp | backend/server.py:724-733 | new xp is old + award, new level is the formula's, level-up iff the level rose, bonus is 10 per level reached on a level-up, else 0 |
| Server.GainXpLevelUp | backend/server.py:724-733 | from non-negative xp a positive award levels up iff it reaches the next multiple of 100; the bonus is then at least 20; an award below 100 rises at most one level |
| Server.CategoryTablesInverse | backend/server.py:207-213 | the Spanish table is the exact inverse of the English one and no name is in both |
| Server.NormalizeCatToEn | backend/server.py:216-223 | the result is a slot key iff the cleaned name is a key in either language; English keys stay, Spanish ones map to their English key, anything else comes back cleaned |
| Server.CleanOfClean | backend/server.py:217 | a trimmed, lower-case name is its own cleaned form |
| Server.NormalizeCatIdempotent | backend/server.py:216-223 | normalising a normalised category changes nothing |
| Server.EnglishKeyClean | backend/server.py:216-223 | every English slot key normalises to itself |
| Server.NewProfile | backend/server.py:166-204 | a freshly registered user's profile shows level 1, no coins, no xp, no badges, no items, no slots, level "primaria" |
| Server.Equipped | backend/server.py:678-693 | equipping writes the item under both the English and the Spanish key, unequipping removes both, and every other slot is kept |
| Server.ValidAfterUpdate | backend/server.py:64-75 | replacing a record by one with the same username, duplicate-free lists and non-negative xp keeps the user map valid |
| Server.PurchaseRefusal | backend/server.py:637-659 | a purchase is accepted iff the id is an ObjectId, the item is named, the price is non-negative, the user exists, can pay and does not own the item; the two user-level refusals are characterised |
| Server.EquipRefusal | backend/server.py:664-697 | an equip is accepted iff the id is valid, the category names a slot in either language, the user exists and owns any item being equipped |
| Server.Api.constructor | backend/server.py:64-107 | empty collections |
| Server.Api.Register | backend/server.py:227-280 | a taken username is refused with nothing changed; otherwise the new user and an empty progress record are stored and the profile returned |
| Server.Api.UpdateLevel | backend/server.py:330-349 | a level other than the three school levels is refused before the id is checked; a known id gets exactly its selected level replaced |
| Server.Api.AddCoins | backend/server.py:566-582 | an invalid id, then a zero amount, then an unknown user are refused with nothing changed; any other amount, negative included, is added and the new balance returned |
| Server.Api.UnlockBadge | backend/server.py:585-600 | the badge is set-inserted; the answer says whether it was new; refusals change nothing |
| Server.Api.PurchaseItem | backend/server.py:629-661 | refuses exactly what PurchaseRefusal names with nothing changed; otherwise the price is debited, the item appended, and the balance returned is non-negative |
| Server.Api.EquipItem | backend/server.py:664-701 | refuses exactly what EquipRefusal names with nothing changed; otherwise only the user's slots change, to Equipped of the normalised category |
| Server.Api.AddXp | backend/server.py:705-748 | a non-positive award or unknown user is refused with nothing changed; otherwise xp rises and the level-up bonus is credited, and the answer reports new xp, level, bonus and coin total |
| Server.Api.GetProgress | backend/server.py:353-372 | an empty id is refused; a missing record is created empty; an existing one is returned unchanged |
| Server.Api.UpdateProgress | backend/server.py:375-404 | an upsert storing the record as sent; the answer says whether it was created |
| UserStore.WithBadge | frontend/store/userStore.ts:53-59 | the badge list becomes the set insert of the old one (a missing list read as empty) and nothing else changes |
| UserStore.WithPurchase | frontend/store/userStore.ts:61-67 | the purchased list becomes the set insert of the old one and nothing else changes |
| UserStore.AddTwiceIsOnce | frontend/store/userStore.ts:53-67 | adding the same badge or item twice equals adding it once; a duplicate-free list stays so |
| UserStore.AddBadgeTwice | frontend/store/userStore.ts:53-59 | two addBadge calls with the same badge list it exactly once |
| UserStore.Store.constructor | frontend/store/userStore.ts:33 | no user |
| UserStore.Store.SetUser | frontend/store/userStore.ts:36 | the slot is replaced wholesale |
| UserStore.Store.UpdateCoins | frontend/store/userStore.ts:38-41 | only the coins change; no user stays no user |
| UserStore.Store.UpdateXp | frontend/store/userStore.ts:43-46 | only xp and the numeric level change |
| UserStore.Store.UpdateLevel | frontend/store/userStore.ts:48-51 | only the level changes, to a name |
| UserStore.Store.AddBadge | frontend/store/userStore.ts:53-59 | the user becomes WithBadge of the old one |
| UserStore.Store.AddPurchasedItem | frontend/store/userStore.ts:61-67 | the user becomes WithPurchase of the old one |
| UserStore.Store.UpdateEquippedItems | frontend/store/userStore.ts:69-72 | only the equipped slots change, as given |
| UserStore.Store.Logout | frontend/store/userStore.ts:74 | no user |
| Commit.RewardedSteps | frontend/app/game/savings.tsx:129-137 | an accepted coin award followed by a positive xp award is accepted and yields the combined reward |
| Commit.AwardCoins | frontend/app/game/savings.tsx:129-132 | the coin call is refused exactly when the server refuses it, leaving both sides unchanged; otherwise the server balance rises by the award and the store takes the rendered balance plus the award, or the server total |
| Commit.AwardXp | frontend/app/game/savings.tsx:134-137 | after an accepted coin award the xp call cannot fail; the store takes the server's new xp and level |
| Commit.GrantRewards | frontend/app/game/savings.tsx:129-137 | either both awards land or nothing changes; on success the store holds Mirrored: the rendered coins (or the server's total) plus the award, never the level-up bonus, and the server's new xp and level |
| Commit.UnlockBadge | frontend/app/game/savings.tsx:156-158 | the store mirrors the badge only when the server accepted it; a known, valid id is always accepted |
| Commit.SaveFirst | frontend/app/game/savings.tsx:140-154 | the record is read (created when absent) and written back only for a module not yet listed, with the module appended, its score set and the total raised |
| Progress.EmptyConsistent | backend/server.py:102-107 | the record of a new user is consistent |
| Progress.SumUpdateAbsent | backend/server.py:102-107 | changing an unlisted module's score leaves the total alone |
| Progress.SumUpdatePresent | backend/server.py:102-107 | changing a listed module's score moves the sum by the difference |
| Progress.SumAppend | backend/server.py:102-107 | listing a module adds its score to the sum |
| Progress.CompletePreserves | frontend/app/game/inicial/counting.tsx:155-164 | listing a new module with its score keeps the record consistent |
| Progress.BestScore | frontend/app/game/inicial/needs-wants.tsx:291-303 | a new module is listed with its score; a listed one takes the score only when strictly higher, the total moving by the difference; otherwise nothing changes |
| Progress.BestScorePreserves | frontend/app/game/inicial/needs-wants.tsx:291-303 | best-score merging keeps the record consistent, stores the maximum of old and new, and leaves other modules' scores alone |
| Progress.BestScoreIdempotent | frontend/app/game/inicial/needs-wants.tsx:291-303 | replaying the same score changes nothing the second time |
| Progress.FirstCompletion | frontend/app/game/inicial/counting.tsx:155-164 | nothing is written iff the module is listed; otherwise it is appended, scored and added to the total |
| Progress.FirstCompletionPreserves | frontend/app/game/inicial/counting.tsx:155-164 | a first completion keeps the record consistent and a second one with any score writes nothing |
| Progress.AlwaysAdd | frontend/app/game/inicial/piggy-bank.tsx:147-155 | the module is listed once and its score overwritten, but the score is added to the total on every run |
| Progress.AlwaysAddDrifts | frontend/app/game/inicial/piggy-bank.tsx:147-155 | a consistent record replayed through the always-add merge is no longer consistent |
| Progress.Overwrite | frontend/app/game/inicial/piggy-bank.tsx:147-155 | the corrected merge: module listed once and its score replaced |
| Progress.OverwritePreserves | frontend/app/game/inicial/piggy-bank.tsx:147-155 | the corrected merge keeps the record consistent and stores the new score |
| Progress.OverwriteIdempotent | frontend/app/game/inicial/piggy-bank.tsx:147-155 | replaying the corrected merge with the same score changes nothing more |
| ProgressService.Select | frontend/src/services/progress.service.ts:32-37 | the first field when it holds a number, else the second when it does, else nothing |
| ProgressService.SelectServerAnswers | frontend/src/services/progress.service.ts:31-57 | against this server's answers the fallbacks find the coin total under new_total and the xp under new_xp, and nothing for a refused call |
| ProgressService.CoinsStep | frontend/src/services/progress.service.ts:31-41 | the coin call's effect is PaidAt, and the yielded total is the new balance exactly when the award is accepted |
| ProgressService.XpStep | frontend/src/services/progress.service.ts:44-57 | the xp call's effect is XpAt; an xp value is yielded iff the award is accepted, with the level beside it |
| ProgressService.AwardCoinsXp | frontend/src/services/progress.service.ts:20-60 | a refused coin award leaves its field empty and does not stop the xp award; the level is recorded iff the xp is |
| ProgressService.IsBetterScore | frontend/src/services/progress.service.ts:104-107 | any score beats a missing or non-numeric best; otherwise only a strictly higher count does |
| ProgressService.BetterIsStrict | frontend/src/services/progress.service.ts:104-107 | an equal score is not better, and being better is transitive |
| LevelState.Name | frontend/utils/levelState.ts:10-14 | every level's name is one the server accepts and has no capitals |
| LevelState.NormalizeLevel | frontend/utils/levelState.ts:10-14 | any casing of "primaria" or "secundaria" is that level, and everything else, null included, is "inicial" |
| LevelState.NormalizeLevelIdempotent | frontend/utils/levelState.ts:10-14 | each level's name normalises back to it, so normalising is idempotent |
| LevelState.Storage.SetItem | frontend/utils/levelState.ts:46 | the key is written with the value |
| LevelState.SetLevel | frontend/utils/levelState.ts:37-50 | the normalised level goes to the present user, to the device under the level key, and to the server for a known id; a refusal is swallowed |
| LevelState.HydrateLevel | frontend/utils/levelState.ts:56-67 | a stored non-empty level is normalised into the present user; nothing else changes |
| Timeout.Hook.constructor | frontend/src/hooks/useTimeout.ts:5 | no pending timer, nothing run |
| Timeout.Hook.Clear | frontend/src/hooks/useTimeout.ts:7-9 | the pending timer is cancelled and nothing runs |
| Timeout.Hook.Schedule | frontend/src/hooks/useTimeout.ts:11-17 | the new timer is the only pending one |
| Timeout.Hook.Fire | frontend/src/hooks/useTimeout.ts:13-16 | the slot ends empty and exactly the pending callback is appended to the runs; the order (slot emptied, then callback) comes from the order of the statements, and the recorded flag only reflects that order |
| Timeout.Hook.Unmount | frontend/src/hooks/useTimeout.ts:19 | nothing is left pending |
| Timeout.ClearTwice | frontend/src/hooks/useTimeout.ts:7-9 | clearing twice is clearing once |
| Timeout.TwoSchedules | frontend/src/hooks/useTimeout.ts:11-17 | of two schedules in a row only the second callback ever runs |
| Timeout.ScheduleThenUnmount | frontend/src/hooks/useTimeout.ts:11-19 | a timer scheduled before unmount never runs |
| Avatar.NormClean | frontend/components/AvatarCanvas.tsx:135-138 | a normalised id has no white space and no capitals, missing and empty ids normalise to "", and normalising is idempotent |
| Avatar.Slot | frontend/components/AvatarCanvas.tsx:61-67 | the Spanish key when it holds a non-empty id, else the English key's value |
| Avatar.BackgroundId | frontend/components/AvatarCanvas.tsx:69 | the normalised background, or "atardecer" when it is empty; never empty |
| Avatar.GenderKey | frontend/components/AvatarCanvas.tsx:74-76 | every case: a non-empty given gender wins, else a non-empty profile gender, else "niño"; whichever is chosen, "female" draws "niña", "male" draws "niño", anything else is drawn as it is |
| Avatar.EquipThenDraw | frontend/components/AvatarCanvas.tsx:61-67 | an item the server equips in a category is exactly what the avatar reads for that slot, and an unequipped category reads as nothing |
| Shuffle.SwapPreserves | frontend/app/game/inicial/coins.tsx:52-59 | a swap keeps the multiset and distinctness |
| Shuffle.Shuffle | frontend/app/game/inicial/needs-wants.tsx:53-60 | the result is a permutation of the input, so distinct elements stay distinct |
| Text.LowerChar | backend/server.py:217 | the result is no capital, keeps white space, and leaves a non-capital alone |
| Text.Lower | frontend/utils/levelState.ts:12 | same length, each character lowered |
| Text.LowerIdempotent | frontend/utils/levelState.ts:12 | lowering twice is lowering once, and trims are kept |
| Text.LowerOfLowered | frontend/utils/levelState.ts:12 | a string without capitals is its own lower-case form |
| Text.TrimStart | backend/server.py:217 | a suffix that starts with no white space, everything dropped being white space |
| Text.TrimEnd | backend/server.py:217 | a prefix that ends with no white space, everything dropped being white space |
| Text.Trim | backend/server.py:217 | neither end of the result is white space |
| Text.TrimSlice | backend/server.py:217 | the result is the slice of the input between an all-white-space prefix and an all-white-space suffix; with Trim's own contract this pins the result down exactly |
| Text.TrimEmpty | backend/server.py:217 | the trim is empty exactly when the input is all white space |
| Text.TrimOfTrimmed | backend/server.py:217 | a trimmed string is its own trim |
| Text.TrimIdempotent | backend/server.py:217 | trimming twice is trimming once |
| Text.DasherizeClean | frontend/components/AvatarCanvas.tsx:137 | no white space remains, and no capitals are added |
| Text.TrimStartRun | frontend/components/AvatarCanvas.tsx:137 | cutting the leading white space of a run followed by a non-space leaves what follows |
| Text.DasherizeRun | frontend/components/AvatarCanvas.tsx:137 | a maximal run of white space after a stretch without any becomes exactly one '-', the stretch kept as it is |
| Text.DasherizeOfNoSpace | frontend/components/AvatarCanvas.tsx:137 | a string without white space is left as it is |
| Common.SetInsert | frontend/store/userStore.ts:56-58 | the element is then present; a present one changes nothing, an absent one is appended; duplicate-freedom is kept |
| Common.SetInsertIdempotent | backend/server.py:595 | inserting twice is inserting once |
| Common.RoundPercent | frontend/app/game/inicial/needs-wants.tsx:212-215 | the integer nearest to 100·n/d with halves up; at most 100 for n ≤ d, 0 for 0, 100 for n = d |
| Coins.CoinsDistinct | frontend/app/game/inicial/coins.tsx:41-46 | four distinct coins, none with the dummy id |
| Coins.DrawCoin | frontend/app/game/inicial/coins.tsx:211-219 | the first draw whose coin differs from the previous one, every draw before it naming the previous coin |
| Coins.NewRound | frontend/app/game/inicial/coins.tsx:211-219 | the target is a coin other than the previous one, and the options are the four coins in some order |
| Coins.AwardFirstModule | frontend/app/game/inicial/coins.tsx:305-307 | a missing badge list throws; otherwise the badge is unlocked on both sides when missing, and a refusal is swallowed |
| Coins.SaveIfChanged | frontend/app/game/inicial/coins.tsx:314-322 | the record is written only when the merge changed it |
| Coins.SaveBest | frontend/app/game/inicial/coins.tsx:292-322 | the best-score merge is written and first_module unlocked when the module is the first ever completed and the profile lacks it, the store gaining the badge exactly then; a crash of the badge step leaves the record only read and the store unchanged |
| Coins.CommitRun | frontend/app/game/inicial/coins.tsx:278-340 | a refused coin award changes neither the server nor the store; otherwise the rewards land and the state is Committed: the crash, or the merge with the due badge, and the store holds the mirrored profile, with first_module when it was awarded |
| Coins.Game.constructor | frontend/app/game/inicial/coins.tsx:130-143 | intro screen, round 1, options a permutation of the coins |
| Coins.Game.StartGame | frontend/app/game/inicial/coins.tsx:221-231 | round 1, no correct answers, input open, a fresh target |
| Coins.Game.HandleCoinSelect | frontend/app/game/inicial/coins.tsx:263-276 | ignored while saving, outside play or locked; otherwise locks, counts a value match and schedules the advance |
| Coins.Game.Fire | frontend/app/game/inicial/coins.tsx:234-261 | after round 5 the summary, otherwise the next round with a different target; input released |
| Coins.Game.Unmount | frontend/app/game/inicial/coins.tsx:116-128 | the screen is gone and no advance is pending |
| Coins.Game.Complete | frontend/app/game/inicial/coins.tsx:278-340 | skipped with nothing changed when signed out; Failed iff the coin award is refused, with neither side changed; Crashed iff the badge step would read a missing list; otherwise Committed, server and store |
| Counting.CollectFacts | frontend/app/game/inicial/counting.tsx:29-32 | the option loop keeps a duplicate-free list of at most three that starts with what was kept, adding only drawn values |
| Counting.CollectOptions | frontend/app/game/inicial/counting.tsx:30-34 | the loop keeps exactly what Collect keeps from the total and the draws: three values |
| Counting.MakeRound | frontend/app/game/inicial/counting.tsx:26-37 | piles of 1 to 5 coins, their sum, and three distinct options from 1 to 10 among which is the sum |
| Counting.RoundNumber | frontend/app/game/inicial/counting.tsx:191 | the question shown is the index plus one, capped at 8 |
| Counting.StarsAndTiers | frontend/app/game/inicial/counting.tsx:183-189 | zero to three stars, three iff perfect, and tier and stars agree; the full table for 0 to 8 |
| Counting.ScoreRange | frontend/app/game/inicial/counting.tsx:145 | 12.5 points per right answer, 0 to 100, 100 iff all eight are right |
| Counting.Game.constructor | frontend/app/game/inicial/counting.tsx:56-63 | not started, mounted, a well-formed round |
| Counting.Game.StartGame | frontend/app/game/inicial/counting.tsx:97-107 | index 0, no correct answers, unlocked, no selection |
| Counting.Game.HandleAnswer | frontend/app/game/inicial/counting.tsx:121-138 | ignored while locked or on the summary; otherwise locks, shows the choice, counts it iff it is the total, and schedules the step |
| Counting.Game.GoNext | frontend/app/game/inicial/counting.tsx:109-119 | unlocks, moves on, deals a new round only while one remains, else the summary |
| Counting.Game.Fire | frontend/app/game/inicial/counting.tsx:138 | the step runs only while mounted |
| Counting.Game.Unmount | frontend/app/game/inicial/counting.tsx:78-81 | the timer stays scheduled but does nothing |
| Counting.Game.Complete | frontend/app/game/inicial/counting.tsx:140-180 | saved iff the coin award is accepted; then the rewards, the first-completion write of the unrounded score, and the store's mirrored profile; skipped or failed leave both sides unchanged |
| Debt.OwedAtLeastBorrowed | frontend/app/game/debt.tsx:24-49 | each situation's amount owed is the loan plus a non-negative interest, equal to the loan iff the rate is zero |
| Debt.ScoreIsQuarter | frontend/app/game/debt.tsx:126 | the score is 25 per right answer |
| Debt.BadgeTiers | frontend/app/game/debt.tsx:127-131 | trophy for four right, medal for two or three, else keep trying |
| Debt.CoinsEarned | frontend/app/game/debt.tsx:137 | 45 coins iff three or more right, else 30 |
| Debt.CommitRun | frontend/app/game/debt.tsx:133-166 | saved iff the coin award is accepted; then the server gets the rewards, the first completion and the fourth-module wizard badge, and the store takes the server's coin total with the mirrored xp, level and badge; otherwise nothing changes on either side |
| Debt.Game.constructor | frontend/app/game/debt.tsx:63-66 | intro, first situation, nothing locked |
| Debt.Game.Start | frontend/app/game/debt.tsx:195 | playing the first situation |
| Debt.Game.OnAnswer | frontend/app/game/debt.tsx:100-115 | ignored while busy; otherwise locks, counts the right answer, opens the explanation |
| Debt.Game.OnNext | frontend/app/game/debt.tsx:117-124 | closes the modal and schedules the step, still locked |
| Debt.Game.Fire | frontend/app/game/debt.tsx:117-124 | the next situation while one remains, else the summary; unlocks |
| Debt.Game.Complete | frontend/app/game/debt.tsx:133-166 | never crashes; Failed iff the coin award is refused, with neither side changed; Saved leaves the Committed state, server and store |
| NeedsWants.BaseItemsDistinct | frontend/app/game/inicial/needs-wants.tsx:37-50 | twelve distinct items |
| NeedsWants.ScorePercent | frontend/app/game/inicial/needs-wants.tsx:212-215 | 0 to 100, 100 for all right, 0 for none |
| NeedsWants.FeedbackForEightItems | frontend/app/game/inicial/needs-wants.tsx:218-265 | the message for every result of an eight-item game |
| NeedsWants.PerfectMeansAllCorrect | frontend/app/game/inicial/needs-wants.tsx:218-265 | the perfect message iff every answer was right |
| NeedsWants.PrefixOfPermutation | frontend/app/game/inicial/needs-wants.tsx:169 | a prefix of a permutation of a duplicate-free list has distinct members of it |
| NeedsWants.DrawItems | frontend/app/game/inicial/needs-wants.tsx:169 | eight distinct items of the bank |
| NeedsWants.Game.constructor | frontend/app/game/inicial/needs-wants.tsx:68-77 | intro, no items, counters at zero |
| NeedsWants.Game.StartGame | frontend/app/game/inicial/needs-wants.tsx:168-180 | eight distinct bank items, counters at zero, input open |
| NeedsWants.Game.HandleAnswer | frontend/app/game/inicial/needs-wants.tsx:182-210 | ignored when locked or past the items; otherwise counts a right answer or the mistake the item's kind calls for, locks and schedules |
| NeedsWants.Game.Advance | frontend/app/game/inicial/needs-wants.tsx:149-155 | the next item while one remains, else the summary; unlocks |
| NeedsWants.Game.Cancel | frontend/app/game/inicial/needs-wants.tsx:156-166 | unmount clears the scheduled advance |
| NeedsWants.Game.Retry | frontend/app/game/inicial/needs-wants.tsx:428 | back to the intro |
| NeedsWants.Game.Complete | frontend/app/game/inicial/needs-wants.tsx:275-327 | saved iff the coin award is accepted; then the rewards, the best-score merge of the percentage and the store's mirrored profile; skipped or failed leave both sides unchanged |
| PiggyBank.SaveMerged | frontend/app/game/inicial/piggy-bank.tsx:143-155 | the read record, or the empty one when the read fails, is merged and written back |
| PiggyBank.ScoreTable | frontend/app/game/inicial/piggy-bank.tsx:136-138 | the score is 0, 33, 67 or 100 |
| PiggyBank.Game.constructor | frontend/app/game/inicial/piggy-bank.tsx:44-54 | the first story page, mounted |
| PiggyBank.Game.HandleNextPage | frontend/app/game/inicial/piggy-bank.tsx:87-94 | the next page, then the quiz after the eighth |
| PiggyBank.Game.HandleAnswer | frontend/app/game/inicial/piggy-bank.tsx:97-127 | ignored while locked; otherwise counts the answer, and a right one, locks and schedules |
| PiggyBank.Game.Fire | frontend/app/game/inicial/piggy-bank.tsx:116-126 | unmounted, nothing; otherwise the next question, or after the third the final counts and the summary |
| PiggyBank.Game.Unmount | frontend/app/game/inicial/piggy-bank.tsx:61-68 | the screen is gone, the timer stays |
| PiggyBank.Game.Complete | frontend/app/game/inicial/piggy-bank.tsx:130-166 | skipped while saving or signed out; saved iff the coin award is accepted, then the rewards, the always-add merge and the store's mirrored profile; skipped or failed leave both sides unchanged |
| PiggyBank.Game.CompleteCorrected | frontend/app/game/inicial/piggy-bank.tsx:130-166 | the same commit, store included, with the overwrite merge, which keeps a consistent record consistent |
| Lemonade.DrawEvent | frontend/app/game/lemonade.tsx:68-88 | day 1 is normal; later days are sunny below 0.2, a special customer from 0.5 to 0.6, and normal from 0.6 |
| Lemonade.RevenueFacts | frontend/app/game/lemonade.tsx:90-134 | positive expected sales give positive sales, above expected iff sunny or special customer, as expected on a normal day |
| Lemonade.TotalProfitAppend | frontend/app/game/lemonade.tsx:196 | one more day adds its profit |
| Lemonade.FinalScoreLadder | frontend/app/game/lemonade.tsx:195-209 | the score is one of 50 to 100 in tens, monotone in the money, 100 iff the money doubled, 50 iff below 22 |
| Lemonade.InvestCheck | frontend/app/game/lemonade.tsx:140-153 | refuses a missing or non-positive investment, then one above the money, then missing or non-positive sales; accepts exactly the rest |
| Lemonade.CorrectedCoins | frontend/app/game/lemonade.tsx:219 | at least one coin, the floor of the money from one dollar up |
| Lemonade.CommitRun | frontend/app/game/lemonade.tsx:211-276 | saved iff the coin award is accepted; then the rewards, the first completion and the milestone badges, on the server and in the store's mirrored profile; otherwise nothing changes on either side |
| Lemonade.UnlockMilestones | frontend/app/game/lemonade.tsx:245-252 | first_module when the module is the only one listed, then lemonade_master, each set-inserted on the server and added in the store |
| Lemonade.LowBalanceRun | frontend/app/game/lemonade.tsx:136-219 | a run the form accepts ends with 50 cents, and its zero coin award is refused by the server |
| Lemonade.Game.constructor | frontend/app/game/lemonade.tsx:50-60 | intro with the starting $20 |
| Lemonade.Game.Start | frontend/app/game/lemonade.tsx:62-73 | the invest screen on day 1 with a normal day |
| Lemonade.Game.HandleDayInvestment | frontend/app/game/lemonade.tsx:136-180 | refuses what InvestCheck names with nothing changed; otherwise the day is recorded and the money moves by its profit |
| Lemonade.Game.HandleNextDay | frontend/app/game/lemonade.tsx:182-193 | the next day with its drawn event until day five, then the summary |
| Lemonade.Game.Complete | frontend/app/game/lemonade.tsx:211-276 | the coins are the floor of the money; saved iff that award is accepted, then Committed, server and store; skipped or failed leave both sides unchanged |
| Lemonade.Game.CompleteCorrected | frontend/app/game/lemonade.tsx:211-276 | with at least one coin, saved iff the user is known, then Committed, server and store |
| Savings.SavedAppend | frontend/app/game/savings.tsx:67-91 | one more week adds its saving |
| Savings.RecordedAppend | frontend/app/game/savings.tsx:67-91 | a well-numbered week with the running total keeps the records valid |
| Savings.GoalCheck | frontend/app/game/savings.tsx:48-65 | refuses a blank name, then a missing or non-positive price, then one outside $5 to $100; accepts exactly the rest |
| Savings.SavingCheck | frontend/app/game/savings.tsx:67-80 | refuses a missing or negative amount, then one above the income; accepts 0 to 10 |
| Savings.ScoreBands | frontend/app/game/savings.tsx:106-120 | a reached goal scores 100 less 5 per week (60 to 95), a missed one 0 to 49 |
| Savings.CoinsEarned | frontend/app/game/savings.tsx:130 | 30 coins iff the goal was reached, else 20 |
| Savings.CommitRun | frontend/app/game/savings.tsx:122-176 | saved iff the coin award is accepted; then the rewards, the first completion and the saver badge, on the server and in the store's mirrored profile; otherwise nothing changes on either side |
| Savings.Game.constructor | frontend/app/game/savings.tsx:32-42 | intro, nothing saved |
| Savings.Game.Start | frontend/app/game/savings.tsx:216 | the goal form with no weeks |
| Savings.Game.SetupGoal | frontend/app/game/savings.tsx:48-65 | refuses what GoalCheck names with nothing changed; otherwise week 1 with the goal |
| Savings.Game.HandleWeeklySaving | frontend/app/game/savings.tsx:67-91 | refuses what SavingCheck names with nothing changed; otherwise the week is recorded with the running total |
| Savings.Game.HandleNextWeek | frontend/app/game/savings.tsx:93-104 | the summary at the goal or after week eight, else the next week |
| Savings.Game.Complete | frontend/app/game/savings.tsx:122-176 | saved iff the 30- or 20-coin award is accepted, then Committed with the score, server and store; skipped or failed leave both sides unchanged |
| Interest.RowsIncrease | frontend/app/game/interest.tsx:42-47 | balances exceed the principal and grow strictly; interest grows by p·r per year |
| Interest.Tabulate | frontend/app/game/interest.tsx:42-47 | the table has one row per year, 1 to n in order, with strictly growing balances |
| Interest.Game.constructor | frontend/app/game/interest.tsx:24-30 | intro, no table |
| Interest.Game.Start | frontend/app/game/interest.tsx:147 | the calculator with no table |
| Interest.Game.CalculateSimpleInterest | frontend/app/game/interest.tsx:32-51 | accepted iff principal and rate are positive and the years 1 to 10; a refusal changes nothing; otherwise the table of those years |
| Interest.Game.ShowComparison | frontend/app/game/interest.tsx:53-67 | the comparison screen, the simple table kept |
| Interest.Game.Complete | frontend/app/game/interest.tsx:69-107 | saved iff the 40-coin award is accepted; then the rewards, the first completion with score 100 and the store's mirrored profile; skipped or failed leave both sides unchanged |

## Left out

- Server.Api.AddCoins: a user is looked up by the id string as sent, so two spellings of one ObjectId that differ only in the case of their hex digits are two ids here, while `ObjectId` (backend/server.py:569) treats them as one. Registration hands out the lower-case `str(inserted_id)` (backend/server.py:262-265), and the clients send back only that id, so no modelled call spells an id another way. Progress records are keyed by the raw string in the code too (backend/server.py:361).
- Server.Api.UpdateLevel, Server.Api.UnlockBadge, Server.Api.PurchaseItem, Server.Api.EquipItem, Server.Api.AddXp: the same case-sensitive lookup (backend/server.py:337, 588, 632, 667, 708).
- Network, timeouts and the database driver are not modelled. Every remote call reaches the server and is answered. The one failure path modelled is the piggy-bank progress read falling back to an empty record (`fetchFails`).
- Randomness (`Math.random`) is taken as parameters: the shuffle draws, the coin and option draws, and the lemonade event value. The re-draw loops take a finite list of draws that ends them.
- Timers are a `pending` flag and a `Fire` method, not a clock. Sounds, animations, alerts and rendering are left out as presentation.
- Text lowercasing covers ASCII letters only. There is no Unicode case folding.
- Money and interest amounts are exact reals. JavaScript floating-point rounding is not modelled.
- Interest.Game.ShowComparison: the compound-interest table it builds is not modelled; only the screen change is.
- `commitModuleProgress` in progress.service.ts is not modelled. It targets an endpoint this server does not have, and no game calls it.
- The `useLevel` hook's compatibility fields and the `String()` conversion of non-string stored levels are not modelled. Only string or missing values are.
- The avatar configuration endpoints, login, get_user, the module list, the shop catalogue and the lemonade endpoints of server.py are not modelled. They are outside the account and progress rules modelled here.
- Pydantic's conversion of scores and amounts to `int` is not modelled. Scores are reals on both sides.
- The interest game's summary phase and the lemonade game's per-day result rendering are not modelled beyond the state they hold.
- A failed device-storage read in `hydrateLevelIfMissing` is not modelled; it does nothing.

## Findings

| source | as written | input that shows it | evidently intended | confidence | as-written member | corrected member |
|---|---|---|---|---|---|---|
| frontend/app/game/inicial/piggy-bank.tsx:147-155 | the merge overwrites the module's score but adds the score to the total on every run | replaying with a stored record of `["piggy_bank"]`, score 100, total 100, and scoring 100 again gives total 200 while the only score is 100 | replace the score and move the total by the difference, so the total stays the sum of the scores | not executed | Progress.AlwaysAddDrifts | Progress.OverwritePreserves |
| frontend/app/game/lemonade.tsx:219 | the coin award is `Math.floor(finalMoney)`, which is 0 for a run ending below one dollar; `add_coins` (backend/server.py:573-574) refuses 0, so the commit stops and the completion is never recorded | invest $20 with expected sales of $0.50 on day 1, then $0.50 with $0.50 expected each later day | award at least one coin so the commit goes through | not executed | Lemonade.LowBalanceRun | Lemonade.Game.CompleteCorrected |
