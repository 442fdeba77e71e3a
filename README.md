# Kids Arithmetic Garden — a verified model of its core

Kids Arithmetic Garden is a browser app for practising arithmetic. It
generates addition, subtraction, multiplication and division questions with
difficulty rules. It re-weights skills adaptively from the child's answers
and summarises weak skills. Correct work earns coins, which buy garden items
in a shop. The garden also pays for achievements and for completing the daily
question set.

This project models the question generator (operand rules, the random source,
skill keys, batches and the daily set) and the adaptive weighting engine. It
also models the local bookkeeping rules:

- the inventory and the wallet;
- the shop purchase;
- the achievements;
- the daily progress and its streak;
- the weakness summary;
- the seed-growth image paths.

The model is written in Dafny and proves properties of each part.

Conventions of the model:

- **Random values.** A random value in [0, 1) is its 32-bit numerator `n` (the value is `n / 2^32`). `Math.random()` is a `MathRandom` object: an unknown stream of draws and the number used so far. Every property holds for every stream, and the methods state which draws they use.
- **Stores.** Each IndexedDB store is a class whose field holds the stored record (`None` before the first write). The swappable random source and the weights dictionary are classes too.
- **Dictionaries.** A JavaScript plain object used as a dictionary is an insertion-ordered list of entries (`Records`).
- **Sorting.** `Array.prototype.sort` is a stable insertion sort (`Sorting`).
- **Parameters.** The clock, today's date key and the day difference between two date keys are parameters. In daily progress, dates are integer day ordinals.

Modules:

| module | models |
|---|---|
| `Wrappers`, `Decimal`, `Records`, `Sorting`, `Text` | runtime behaviour the source relies on: `??`, `${n}` / `parseInt`, plain-object dictionaries, stable sort, `split` / `join` / `indexOf` |
| `Random` | `src/generator/random.ts` |
| `Difficulty` | `src/generator/difficulty.ts` |
| `Generator` | `src/generator/index.ts` |
| `Adaptive` | `src/adaptive/index.ts` |
| `Weaknesses` | `src/persistence/weaknesses.ts` |
| `Inventory` | `src/persistence/inventory.ts` |
| `Wallet` | `src/persistence/wallet.ts` |
| `Purchase` | `src/shop/purchase.ts` |
| `Achievements` | `src/persistence/achievements.ts` |
| `DailyProgress` | `src/persistence/dailyProgress.ts` |
| `Assets` | `src/garden/assets.ts` |

## Model

| member | source | states |
|---|---|---|
| Decimal.NatToStringRoundTrip | src/generator/index.ts:99-101 | `parseInt` of the digits that `${n}` prints for a natural number gives back `n` |
| Decimal.IntToStringInjective | src/generator/index.ts:161 | two integers print the same text only if they are equal |
| Decimal.IntToStringChars | src/generator/index.ts:22-33 | a printed integer contains only digits and possibly a leading minus sign |
| Records.GetHas | src/persistence/inventory.ts:72-74 | `r[k]` is present exactly when some entry has key `k`, and then it is that entry's value |
| Records.GetPut | src/persistence/inventory.ts:66-67 | `r[k] = v` is read back, and every other key reads as before |
| Records.GetOfEntry | src/persistence/weaknesses.ts:49-55 | in a dictionary without repeated keys, an entry's value is what its key reads |
| Records.PutPut | src/adaptive/index.ts:48 | a second assignment to a key overrides the first |
| Records.KeysPut | src/adaptive/index.ts:48 | assigning to a key keeps the key order, appends a missing key, and keeps keys unique |
| Records.GetRemove | src/persistence/inventory.ts:170 | after `delete r[k]`, `k` is absent, every other key reads as before, and keys stay unique |
| Records.KeysRemove | src/persistence/inventory.ts:170 | the keys after `delete r[k]` are the old keys except `k` |
| Records.SumPut | src/persistence/inventory.ts:50-52 | assigning `v` to `k` changes the sum of the values by `v` minus the old value |
| Records.SumRemove | src/persistence/inventory.ts:50-52 | deleting a key subtracts its value from the sum |
| Records.RemoveAbsent | src/persistence/inventory.ts:170 | deleting a missing key changes nothing |
| Records.SumNonNegative | src/persistence/inventory.ts:50-52 | a dictionary of non-negative values has a non-negative sum |
| Records.PutNonNegative | src/persistence/inventory.ts:67 | storing a non-negative value keeps all values non-negative |
| Records.RemoveNonNegative | src/persistence/inventory.ts:170 | deleting keeps all values non-negative |
| Records.RemovePut | src/persistence/inventory.ts:169-170 | assigning to a key and then deleting it leaves what deleting it alone leaves |
| Sorting.SortDesc | src/adaptive/index.ts:58-60 | the stable sort returns a permutation of its input |
| Sorting.Insert | src/adaptive/index.ts:58-60 | one insertion step adds exactly one element to the multiset |
| Sorting.InsertSorted | src/adaptive/index.ts:58-60 | inserting into a sorted list under a total preorder keeps it sorted |
| Sorting.SortDescSorted | src/persistence/weaknesses.ts:56 | under a total preorder, the sort's result ranks every element at least as high as every later one |
| Sorting.SortedSplit | src/adaptive/index.ts:61-62 | in a sorted list, everything before a cut ranks at least as high as everything after it |
| Text.IndexOf | src/persistence/weaknesses.ts:22 | `indexOf` returns the first position of the character, or -1 exactly when it is absent |
| Text.IndexOfFirst | src/persistence/weaknesses.ts:22 | the first separator after a separator-free prefix is found at the prefix's length |
| Text.SplitAtFirst | src/persistence/weaknesses.ts:22-24 | a string splits uniquely at the first occurrence of a separator |
| Text.Split | src/persistence/weaknesses.ts:14 | `split` yields at least one piece, and no piece contains the separator |
| Text.JoinSplit | src/persistence/weaknesses.ts:14 | joining the pieces of a split gives back the string |
| Text.SplitJoin | src/persistence/weaknesses.ts:14 | splitting separator-free pieces joined by the separator gives back the pieces |
| Random.Scale | src/generator/difficulty.ts:46-52 | `Math.floor(r * k)` lies in [0, k) for k > 0 |
| Random.ToInt32 | src/generator/random.ts:20 | `x \| 0` is a signed 32-bit value congruent to `x` modulo 2^32 |
| Random.HashString | src/generator/random.ts:17-23 | the loop's result is the left fold h ↦ (33·h + charCode) mod 2^32 from 5381, a value in [0, 2^32) |
| Random.HashStepSigned | src/generator/random.ts:20 | the signed `((h << 5) + h + c) \| 0` step agrees, modulo 2^32, with the unsigned djb2 step |
| Random.HashOfEmpty | src/generator/random.ts:18-22 | the hash of the empty string is 5381 |
| Random.HashSnoc | src/generator/random.ts:19-21 | appending a character applies one more step (33·h + c) mod 2^32 |
| Random.Xor | src/generator/random.ts:30-31 | exclusive or below 2^32 stays below 2^32 |
| Random.Draws | src/generator/random.ts:26-33 | a seed determines its sequence of draws, one per call: after k calls there are exactly k draws |
| Random.StateAfterClosedForm | src/generator/random.ts:28-29 | after k calls the state is seed + k·0x6d2b79f5 mod 2^32 |
| Random.DrawAt | src/generator/random.ts:28-32 | draw i of a seeded generator is the mix of the state after i + 1 increments |
| Random.SeededRandom.constructor | src/generator/random.ts:26-27 | the closure captures the seed as its state |
| Random.SeededRandom.Next | src/generator/random.ts:28-32 | each call advances the state by 0x6d2b79f5 mod 2^32, returns the 32-bit mix of the new state, and appends exactly that value to the seed's sequence of draws |
| Random.NextDraw | src/generator/random.ts:28-32 | from the state after c calls, one more call reaches the state after c + 1 calls and yields draw c of the seed, extending the draws by it |
| Random.MathRandom.Next | src/generator/difficulty.ts:46 | a call of `Math.random()` returns the next draw of its stream and uses up exactly one draw |
| Random.RandomSource.constructor | src/generator/random.ts:2 | the default `Math.random` is active at start |
| Random.RandomSource.GetRandom | src/generator/random.ts:4-6 | returns the next draw of the installed source, the seeded generator or else `Math.random`, using up exactly one of its draws; the other source and the installed one are unchanged |
| Random.RandomSource.Draw | src/generator/random.ts:4-6 | a draw through `Math.random()` or `getRandom()` returns the next draw of that call's stream, uses up exactly one draw and leaves the other stream alone |
| Random.RandomSource.SetRandom | src/generator/random.ts:8-10 | the given generator becomes the active source |
| Random.RandomSource.ResetRandom | src/generator/random.ts:12-14 | `Math.random` is active again |
| Difficulty.JsRem | src/generator/difficulty.ts:5-10 | JavaScript `%` is Euclidean remainder for non-negative operands and takes the dividend's sign otherwise |
| Difficulty.CarryIsColumnCarry | src/generator/difficulty.ts:4-6 | for naturals, a carry happens iff the ones digits sum to 10 or more, iff the tens of the sum differ from the sum of the tens |
| Difficulty.BorrowIsColumnBorrow | src/generator/difficulty.ts:9-11 | for naturals, a borrow happens iff the ones digit of a is below that of b, iff column subtraction borrows from the tens |
| Difficulty.CarryBorrowExamples | src/generator/difficulty.ts:4-11 | carry for (5,5) and (15,16) but not (3,4); borrow for (12,5) and (10,3) but not (15,5) |
| Difficulty.MultipliersFor | src/generator/difficulty.ts:18-29 | every multiplier pool has at least three values, each between 2 and 10 |
| Difficulty.MultiplierTiers | src/generator/difficulty.ts:14-29 | easy is [2,5,10]; normal is easy followed by [3,4,6]; hard is normal followed by [7,8,9]; so easy ⊆ normal ⊆ hard |
| Difficulty.DivisorsFor | src/generator/difficulty.ts:32-43 | every divisor pool has at least two values, each between 2 and 9, so never 0 |
| Difficulty.Pick | src/generator/difficulty.ts:45-47 | the element at index floor(r·len) for the next draw r, using exactly one draw |
| Difficulty.PickAt | src/generator/difficulty.ts:45-47 | the element picked with any draw is an element of the array |
| Difficulty.RandomInt | src/generator/difficulty.ts:49-53 | floor(r·(max − min + 1)) + min for the next draw r, using exactly one draw |
| Difficulty.RandomIntAt | src/generator/difficulty.ts:49-53 | with min ≤ max the result is in [min, max]; with min > max it is in [max+1, min] |
| Difficulty.RandomAddends | src/generator/difficulty.ts:56-70 | the pair and the draws used are those of the first of 100 drawn pairs that is kept, or the fallback (rangeMin, rangeMin) after 100 rejections |
| Difficulty.AddendsAttemptDraw | src/generator/difficulty.ts:62-67 | one pass draws two values and keeps them exactly when their sum is at most 2·rangeMax and, when easy, they have no carry; a rejected pass leaves the rest to the next attempt |
| Difficulty.AddendsAttempt | src/generator/difficulty.ts:62-67 | a rejected pair passes on to the next attempt two draws later; a kept pair is the result |
| Difficulty.AddendsRules | src/generator/difficulty.ts:56-70 | for every sequence of draws, both addends are in range, the sum is at most 2·rangeMax, and in easy mode there is no carry, unless the result is the fallback (rangeMin, rangeMin) |
| Difficulty.RandomMinuendSubtrahend | src/generator/difficulty.ts:73-87 | the pair and the draws used are those of the first of 100 drawn pairs that is kept, or the fallback (rangeMax, rangeMin) after 100 rejections |
| Difficulty.MinuendSubtrahendAttemptDraw | src/generator/difficulty.ts:78-84 | one pass draws two values and keeps them exactly when a ≥ b, they differ or the range has one value, and, when easy, there is no borrow |
| Difficulty.MinuendSubtrahendAttempt | src/generator/difficulty.ts:78-84 | a rejected pair passes on to the next attempt two draws later; a kept pair is the result |
| Difficulty.MinuendSubtrahendRules | src/generator/difficulty.ts:73-87 | for every sequence of draws, both operands are in range with a ≥ b; a == b only for a one-value range; in easy mode there is no borrow; unless the result is the fallback (rangeMax, rangeMin) |
| Difficulty.RandomFactors | src/generator/difficulty.ts:90-95 | the multiplier picked with the next draw and the factor drawn with the one after |
| Difficulty.FactorsAt | src/generator/difficulty.ts:90-95 | for every sequence of draws, the multiplier comes from the difficulty's pool and the other factor is in 1..9, using two draws |
| Difficulty.RandomDivisionOperands | src/generator/difficulty.ts:98-104 | the divisor picked with the next draw, the quotient drawn with the one after, and their product as dividend |
| Difficulty.DivisionAt | src/generator/difficulty.ts:98-104 | for every sequence of draws, the divisor comes from the pool, the quotient is in 1..9, and the dividend is their product, so the division is exact |
| Difficulty.ProductDivides | src/generator/difficulty.ts:101-103 | a pool divisor times a quotient in 1..9, divided by the divisor, gives back the quotient with remainder 0 |
| Generator.SkillKeyFor | src/generator/index.ts:22-33 | a skill key begins with its operation's prefix |
| Generator.SplitKey | src/generator/index.ts:99-139 | a match of `^prefix(\d+)sep(\d+)$` gives two non-empty digit runs that rebuild the key |
| Generator.SplitKeyComplete | src/generator/index.ts:99-139 | every key of that form matches, with its own digit runs |
| Generator.MatchOp | src/generator/index.ts:99-101 | an operation's pattern yields operands exactly when the key matches it |
| Generator.ParseSkillKey | src/generator/index.ts:99-152 | parsing reports the first matching pattern with its operands, and fails only when no pattern matches |
| Generator.OtherPrefixNoMatch | src/generator/index.ts:99-139 | a key with one operation's prefix matches no other operation's pattern |
| Generator.ParseSingleMatch | src/generator/index.ts:99-152 | when exactly one pattern matches, parsing reports that operation |
| Generator.ParseSkillKeyRoundTrip | src/generator/index.ts:22-33 | a key built from natural operands parses back to the same operation and operands |
| Generator.Reconstruct | src/generator/index.ts:99-151 | a question is built exactly when the range checks pass (add: operands ≥ rangeMin and sum ≤ 2·rangeMax; sub: a ≥ b, a ≤ rangeMax, b ≥ rangeMin; div: b ≠ 0 and b divides a; every mul); it is well-formed and carries the key |
| Generator.GenerateQuestionFromSkillKey | src/generator/index.ts:93-153 | null for a key matching no pattern; otherwise the reconstruction with the range defaulting to 0..100; a result is well-formed and parses back to its own operation and operands |
| Generator.UnmatchedKeyRejected | src/generator/index.ts:152 | a key matching no pattern gives null |
| Generator.AddKeyExample | src/generator/index.ts:99-112 | `add_3_5` reconstructs to 3 + 5 = 8 with no carry |
| Generator.DivKeyExample | src/generator/index.ts:139-151 | `div_7_2` is rejected because 2 does not divide 7 |
| Generator.GeneratedSubNonNegative | src/generator/index.ts:54-65 | a generated subtraction over a well-ordered range has a non-negative answer |
| Generator.GeneratedKeyReconstructs | src/generator/index.ts:35-90 | a generated question without a key override is exactly what its own key reconstructs to |
| Generator.WellFormedDetermined | src/generator/index.ts:42-86 | a question's operation and operands determine its answer and its flags |
| Generator.DedupKeyInjective | src/generator/index.ts:161 | two questions share the key `${a},${b},${op}` exactly when they share (a, b, op) |
| Generator.PickOperation | src/generator/index.ts:15-20 | a fixed operation is returned without a draw; a mixed pick is `OPS[floor(r·4)]` for the next draw r of `getRandom()`, using exactly one draw |
| Generator.OpAt | src/generator/index.ts:15-20 | with a fixed option, that operation and no draw; with `mixed`, the operation of the next draw and one draw used |
| Generator.DrawOperands | src/generator/index.ts:41-86 | the operands and answer of the `switch` case for the operation, drawn with the draws of the difficulty helpers in order |
| Generator.DrawSum | src/generator/index.ts:42-44 | the addends of `randomAddends` and their sum |
| Generator.DrawDifference | src/generator/index.ts:54-56 | the operands of `randomMinuendSubtrahend` and their difference |
| Generator.DrawProduct | src/generator/index.ts:66-68 | the factors of `randomFactors` and their product |
| Generator.GenerateQuestion | src/generator/index.ts:35-90 | the question and the draws used are one step of the model from the current draws; the question is well-formed, of the requested operation, keyed by the override or by its operands, with operands obeying the difficulty rules for the range |
| Generator.StepGenerated | src/generator/index.ts:35-90 | for every sequence of draws, one step yields a question `generateQuestion` promises |
| Generator.DrawnGenerated | src/generator/index.ts:41-86 | the operands drawn for any operation the option allows make a question `generateQuestion` promises |
| Generator.BatchExtends | src/generator/index.ts:155-170 | a batch extends the questions already collected and never exceeds `count` |
| Generator.BatchKeeps | src/generator/index.ts:159-168 | a property of every drawn question holds of every question of the batch |
| Generator.BatchDistinct | src/generator/index.ts:161-167 | while count ≤ 100, a batch never holds two questions with the same (a, b, op), whatever the draws |
| Generator.StepFunction | src/generator/index.ts:155-170 | the batch of `generateQuestion` steps has at most `count` questions, each generated for the options, and distinct triples when count ≤ 100 |
| Generator.GenerateQuestions | src/generator/index.ts:155-170 | the batch of the current draws; at most `count` (default 10) generated questions, exactly `count` when complete; no two share (a, b, op) when count ≤ 100 |
| Generator.GenerateTodayQuestions | src/generator/index.ts:172-188 | as written: the default source is active afterwards; the set is the mixed 0..50 normal batch with operations from the stream seeded by `hashString(dateKey)` and operands from `Math.random()`; distinct triples when count ≤ 100 |
| Generator.TodayOpsFromDate | src/generator/index.ts:172-188 | the operations of the daily set are those of the stream seeded by `hashString(dateKey)`, at increasing positions, and at positions 0, 1, 2, … when nothing is dropped |
| Generator.BatchOpsFromSeed | src/generator/index.ts:159-168 | in a batch whose operations come from the seeded stream, the new questions' operations are that stream's draws at increasing positions |
| Generator.FirstOfBatch | src/generator/index.ts:159-167 | the first question of a batch with room is the first one drawn |
| Generator.FirstOperandsDiffer | src/generator/difficulty.ts:46-52 | on 0..50 at normal difficulty, the all-zero and the alternating `Math.random()` streams give different first operands for every operation |
| Generator.TodayOperandsVary | src/generator/index.ts:172-188 | as written, the same date gives two different daily sets under two `Math.random()` streams |
| Generator.GenerateTodayQuestionsSeeded | src/generator/index.ts:172-188 | with every draw taken through `getRandom()`, the daily set is a function of the date alone and `Math.random()` is not consulted; the default source is active afterwards |
| Adaptive.ComputeNewWeight | src/adaptive/index.ts:21-34 | wrong gives w+3; correct and slower than the threshold gives w+1; otherwise max(0, w−1) |
| Adaptive.WeightStaysNonNegative | src/adaptive/index.ts:21-34 | a non-negative weight stays non-negative and moves by at most +3 / −1 |
| Adaptive.OutcomesOrdered | src/adaptive/index.ts:27-33 | a mistake weighs more than a slow answer, which weighs more than a fast one |
| Adaptive.ComputeNewWeightExamples | src/adaptive/index.ts:21-34 | 0 wrong → 3; 2 wrong slow → 5; 0 slow → 1; 3 fast → 2; 0 fast → 0; 1 at exactly 5000 ms → 0 |
| Adaptive.WeightsMap.constructor | src/adaptive/index.ts:40 | the map holds the given entries |
| Adaptive.UpdateWeight | src/adaptive/index.ts:40-50 | writes the new weight of the key, reading a missing key as 0; every other key is unchanged; returns the same map |
| Adaptive.ByWeightTotalPreorder | src/adaptive/index.ts:58-60 | the weight comparator is a total preorder on keys |
| Adaptive.SplitPools | src/adaptive/index.ts:55-64 | the high pool has ceil(n/2) keys; high followed by low is a permutation of the keys; an empty map gives two empty pools |
| Adaptive.SplitPoolsOrdered | src/adaptive/index.ts:55-64 | every high-pool weight is at least every low-pool weight |
| Adaptive.PickKey | src/adaptive/index.ts:66-69 | undefined exactly for an empty array, with no draw; otherwise the element at floor(r·len) for the next draw r, using exactly one draw |
| Adaptive.ChosenPoolKeys | src/adaptive/index.ts:75-81 | the pool chosen from the split of a non-empty map is non-empty and holds only keys of the map |
| Adaptive.ChosenPoolHeavier | src/adaptive/index.ts:80 | a routing draw below 0.8 chooses keys weighing at least as much as every key of the low pool |
| Adaptive.SingleKeyPool | src/adaptive/index.ts:75-81 | a single-key map always chooses a pool holding just that key |
| Adaptive.PickFromPools | src/adaptive/index.ts:77-80 | undefined exactly when both pools are empty; the other pool when one is empty, with one draw; otherwise the pool chosen by the next draw (high below 0.8) and the key at floor(d·len) for the draw after it; key and draws used are those of `PickFromPoolsAt` on the `Math.random()` stream |
| Adaptive.NextSkillKeyAtFacts | src/adaptive/index.ts:75-81 | for every stream of draws: a key exactly when the map is not empty, always a key of the map; an empty map uses no draw, a single-key map one draw and gives its key, a larger map two draws, the first routing and the second indexing the chosen pool |
| Adaptive.GetNextSkillKey | src/adaptive/index.ts:75-81 | the key and the draws used are `NextSkillKeyAt` of the map on the `Math.random()` stream: with two keys or more, `n` and `d` are the next two draws and two draws are used; with one key, `d` is the next draw and one draw is used; an empty map draws nothing and gives undefined; the key is the one at floor(d·len) of the pool of `splitPools` chosen by `n`, so a key of the map |
| Adaptive.SampleOne | src/adaptive/index.ts:96-103 | the question and the draws used are one `SampleStep` from the current draws: the key `getNextSkillKey` draws, then its reconstruction when the key is non-empty and accepted, otherwise a fresh `generateQuestion` from the draws left; so a reconstruction of a map key or a fresh question, well-formed, and fresh when the map is empty |
| Adaptive.QuestionFor | src/adaptive/index.ts:97-103 | `fromKey ?? generateQuestion(opts)`: the drawn key's reconstruction when the key is non-empty and accepted, with no draw; otherwise one `generateQuestion` step from the current draws |
| Adaptive.EmptyKeyRejected | src/adaptive/index.ts:97-102 | the empty key reconstructs to nothing, so the truthiness test on the key loses no question |
| Adaptive.SampleStepUsesKey | src/adaptive/index.ts:96-103 | whatever the draws, a drawn key that reconstructs is used, and the question is its reconstruction, from a key of the map; when there is no key or it is rejected, the round is a plain `generateQuestion` after the key's draws |
| Adaptive.SampleStepEmptyMap | src/adaptive/index.ts:96-103 | with an empty map a round draws no key and is exactly one `generateQuestion` |
| Adaptive.SampleStepSampled | src/adaptive/index.ts:96-103 | every round's question is a reconstruction of a map key or a fresh question, well-formed, and fresh when the map is empty |
| Adaptive.SampleBatchSnoc | src/adaptive/index.ts:95-105 | one more loop iteration appends the question of one round drawn from where the batch ended |
| Adaptive.SampleBatchKeeps | src/adaptive/index.ts:95-105 | a batch of n rounds holds n questions, and a property of every round's question holds of each of them |
| Adaptive.SampleBatchSampled | src/adaptive/index.ts:95-105 | every question of a batch of rounds is a reconstruction of a map key or a fresh question, well-formed, fresh when the map is empty |
| Adaptive.SampleBatchFromMap | src/adaptive/index.ts:95-105 | when every key of a non-empty map reconstructs, every question of the batch is the reconstruction of a key of the map, never a fresh one |
| Adaptive.SampleRounds | src/adaptive/index.ts:94-106 | the loop: the questions collected and the draws used are `SampleBatch` of n rounds of `SampleStep` from the current draws |
| Adaptive.SampleQuestions | src/adaptive/index.ts:88-107 | the questions and the draws used are `SampleBatch` of max(count, 0) rounds of `SampleStep` from the current draws, so each question is the reconstruction of the key `getNextSkillKey` draws, or a fresh one only when there is no key or it is rejected; exactly max(count, 0) questions, each well-formed; the map is not modified |
| Adaptive.GeneratedWellFormed | src/adaptive/index.ts:99-102 | a generated question is well-formed |
| Weaknesses.SkillKeyToDisplay | src/persistence/weaknesses.ts:12-31 | a key with none of the four prefixes is shown unchanged |
| Weaknesses.SplitPair | src/persistence/weaknesses.ts:23 | splitting x, separator, y on the separator gives [x, y] when neither part holds it |
| Weaknesses.SplitTriple | src/persistence/weaknesses.ts:27 | splitting x, sep, y, sep, z on the separator gives [x, y, z] when no part holds it |
| Weaknesses.UnderscoreFields | src/persistence/weaknesses.ts:13-28 | the second and third `_`-separated fields of `name_A_B` are A and B when no part holds `_` |
| Weaknesses.DisplayOfMulKey | src/persistence/weaknesses.ts:21-25 | a `mul_AxB` key is shown as A, ×, B |
| Weaknesses.DisplayOfUnderscoreKey | src/persistence/weaknesses.ts:12-29 | an `add_A_B`, `sub_A_B` or `div_A_B` key is shown as A, the operation's symbol, B |
| Weaknesses.DisplayOfBuiltKey | src/persistence/weaknesses.ts:12-29 | a key built for (op, a, b) is shown as a, the operation's symbol (＋ － × ÷), then b |
| Weaknesses.DisplayMissingOperand | src/persistence/weaknesses.ts:15 | a missing operand is shown as "?" |
| Weaknesses.WrongAtMostTotal | src/persistence/weaknesses.ts:40-46 | a key's wrong count never exceeds its total |
| Weaknesses.TalliesValid | src/persistence/weaknesses.ts:40-46 | the tally dictionary has no repeated key |
| Weaknesses.TalliesCount | src/persistence/weaknesses.ts:40-46 | a key has a tally exactly when some attempt has it, and the tally counts that key's attempts and mistakes |
| Weaknesses.GetBump | src/persistence/weaknesses.ts:42-45 | one attempt bumps only its own key's tally |
| Weaknesses.CountAttempts | src/persistence/weaknesses.ts:40-46 | the counting loop computes the per-key tallies of all attempts |
| Weaknesses.Qualifying | src/persistence/weaknesses.ts:47-55 | exactly the keys with total ≥ 2 and wrong > 0 are kept, each with its display text |
| Weaknesses.RateGeqTransitive | src/persistence/weaknesses.ts:56 | comparing error rates by cross-multiplication is transitive |
| Weaknesses.RateGeqTotalPreorder | src/persistence/weaknesses.ts:56 | the error-rate order is a total preorder on items with positive totals |
| Weaknesses.SliceEnd | src/persistence/weaknesses.ts:57 | `slice(0, n)` ends at min(n, len), or for negative n at max(0, len + n) |
| Weaknesses.WeaknessList | src/persistence/weaknesses.ts:47-57 | exactly the first SliceEnd(n, topN) items of the qualifying items sorted by error rate; each qualifies; all of them when topN is large enough |
| Weaknesses.WeaknessListTop | src/persistence/weaknesses.ts:56-57 | the list is ordered by error rate, and no omitted qualifying item has a higher error rate than a listed one |
| Weaknesses.ListedCounts | src/persistence/weaknesses.ts:40-55 | each listed item carries its key's own counts of attempts and mistakes, at least 2 and 1, and the key's display text |
| Weaknesses.UnlistedRankLower | src/persistence/weaknesses.ts:56-57 | a qualifying key left off the list has an error rate no higher than any listed item's |
| Weaknesses.ListsAllWhenRoom | src/persistence/weaknesses.ts:57 | when topN reaches the number of qualifying keys, every key answered twice with a mistake is listed |
| Weaknesses.QualifyingItemOf | src/persistence/weaknesses.ts:47-55 | a key answered at least twice with a mistake passes the filter with its own counts |
| Weaknesses.GetWeaknessStats | src/persistence/weaknesses.ts:36-59 | the weakness list of the attempts' tallies, `slice` long; each listed item carries its key's own counts, with total ≥ 2 and a mistake; at most topN (default 5); ordered by error rate; no unlisted qualifying key ranks higher; every qualifying key when topN reaches their number |
| Inventory.Normalize | src/persistence/inventory.ts:22-30 | fills only a missing dictionary (with {}) and a missing capacity (with 5); every other field is unchanged |
| Inventory.NormalizeIdempotent | src/persistence/inventory.ts:22-30 | normalizing twice is normalizing once, and exactly the normal records are left unchanged |
| Inventory.Loaded | src/persistence/inventory.ts:3-48 | a missing record reads as the default; a stored record reads as its normalization |
| Inventory.AfterRead | src/persistence/inventory.ts:16-17 | a read stores the default record when none is stored, and otherwise writes nothing |
| Inventory.LoadedAfterRead | src/persistence/inventory.ts:3-20 | reading again after a read sees the same record and writes nothing new |
| Inventory.WithCount | src/persistence/inventory.ts:107-126 | setting one consumable changes that count and no other field |
| Inventory.WithBag | src/persistence/inventory.ts:63-134 | replacing one dictionary changes no other field |
| Inventory.TotalItemCount | src/persistence/inventory.ts:54-61 | the total of a sound record is non-negative |
| Inventory.NormalizeBags | src/persistence/inventory.ts:54-61 | normalizing does not change what a dictionary reads as |
| Inventory.SumsNonNegative | src/persistence/inventory.ts:50-52 | in a sound record each dictionary sums to at least 0 |
| Inventory.TotalIsCountsPlusBags | src/persistence/inventory.ts:50-61 | the total is water + both fertilizers + the sums of the seeds, tools, watering cans and backpacks |
| Inventory.DefaultInventoryFacts | src/persistence/inventory.ts:7-17 | the fresh record is sound and normal, holds one pink_flower seed, has total 1 and capacity 5 |
| Inventory.LoadedSound | src/persistence/inventory.ts:3-48 | a loaded record is sound whenever the stored one is |
| Inventory.UseConsumable | src/persistence/inventory.ts:136-161 | fails exactly when the count is below 1 |
| Inventory.UseSeedIn | src/persistence/inventory.ts:163-173 | fails exactly when the seed's count is below 1 |
| Inventory.AddToBagGet | src/persistence/inventory.ts:67-132 | stores max(0, old + count) under the id; other ids are unchanged |
| Inventory.BumpedGet | src/persistence/inventory.ts:67 | `r[id] = max(0, (r[id] ?? 0) + count)` reads back that value and leaves other keys alone |
| Inventory.AddToBagSound | src/persistence/inventory.ts:67-132 | adding to a dictionary keeps the record sound |
| Inventory.TotalWithBag | src/persistence/inventory.ts:54-61 | replacing one bag changes the total item count by the new bag's sum minus the old bag's sum |
| Inventory.AddToBagTotal | src/persistence/inventory.ts:54-61 | the total changes by the new count minus the old one |
| Inventory.AddConsumableEffect | src/persistence/inventory.ts:110-124 | stores max(0, old + count), keeps the record sound, and moves the total accordingly |
| Inventory.UseConsumableEffect | src/persistence/inventory.ts:136-161 | on success, the count drops by exactly 1, nothing else changes, and the total drops by 1 |
| Inventory.UseSeedGet | src/persistence/inventory.ts:163-173 | on success, the seed count drops by 1 and the entry is deleted at 0; other seeds are unchanged |
| Inventory.DecrementedGet | src/persistence/inventory.ts:166-170 | taking one of `id` out reads back one fewer, or nothing when it reaches 0; other keys are unchanged |
| Inventory.DecrementedSetThenDelete | src/persistence/inventory.ts:169-170 | assigning n − 1 and then deleting the key when it is 0 gives the decremented dictionary |
| Inventory.UseSeedSum | src/persistence/inventory.ts:163-173 | on success, the seed dictionary's sum drops by exactly 1 and it stays sound |
| Inventory.UseSeedTotal | src/persistence/inventory.ts:163-173 | on success, the record stays sound and its total drops by exactly 1 |
| Inventory.ExpandNeverDecreases | src/persistence/inventory.ts:93-98 | capacity never decreases; it grows by `amount` when that is non-negative; the total is unchanged |
| Inventory.HasToolAfterAdd | src/persistence/inventory.ts:63-75 | after a positive addition of a tool, `hasTool` holds |
| Inventory.InventoryStore.constructor | src/persistence/inventory.ts:3-5 | the store starts empty |
| Inventory.InventoryStore.GetInventory | src/persistence/inventory.ts:3-20 | returns the normalized stored record or the default, storing the default when none is stored |
| Inventory.InventoryStore.GetInventoryState | src/persistence/inventory.ts:32-48 | returns the loaded record |
| Inventory.InventoryStore.AddTool | src/persistence/inventory.ts:63-69 | stores the loaded record with tools[id] = max(0, old + count) |
| Inventory.InventoryStore.HasTool | src/persistence/inventory.ts:71-75 | true exactly when tools[id] > 0 |
| Inventory.InventoryStore.AddWateringCan | src/persistence/inventory.ts:77-83 | stores the loaded record with wateringCans[id] = max(0, old + count) |
| Inventory.InventoryStore.AddBackpack | src/persistence/inventory.ts:85-91 | stores the loaded record with backpacks[id] = max(0, old + count) |
| Inventory.InventoryStore.ExpandCapacity | src/persistence/inventory.ts:93-98 | stores the loaded record with its capacity expanded |
| Inventory.InventoryStore.SetSelectedBackpack | src/persistence/inventory.ts:100-105 | stores the loaded record with the selected backpack set |
| Inventory.InventoryStore.AddWater | src/persistence/inventory.ts:107-112 | stores water = max(0, old + count) |
| Inventory.InventoryStore.AddFertilizerBasic | src/persistence/inventory.ts:114-119 | stores fertilizerBasic = max(0, old + count) |
| Inventory.InventoryStore.AddFertilizerPremium | src/persistence/inventory.ts:121-126 | stores fertilizerPremium = max(0, old + count) |
| Inventory.InventoryStore.AddSeed | src/persistence/inventory.ts:128-134 | stores seeds[id] = max(0, old + count) |
| Inventory.InventoryStore.Use | src/persistence/inventory.ts:136-161 | succeeds exactly when the count is at least 1 and then stores the decremented record; otherwise only the default may be written |
| Inventory.InventoryStore.UseWater | src/persistence/inventory.ts:136-143 | true exactly when water ≥ 1; then water drops by 1; otherwise only the default record may be written, when none was stored |
| Inventory.InventoryStore.UseFertilizerBasic | src/persistence/inventory.ts:145-152 | true exactly when the basic fertilizer is ≥ 1; then it drops by 1; otherwise only the default record may be written, when none was stored |
| Inventory.InventoryStore.UseFertilizerPremium | src/persistence/inventory.ts:154-161 | true exactly when the premium fertilizer is ≥ 1; then it drops by 1; otherwise only the default record may be written, when none was stored |
| Inventory.InventoryStore.UseSeed | src/persistence/inventory.ts:163-173 | true exactly when the seed count is ≥ 1; then it drops by 1 and the entry is deleted at 0 |
| Wallet.LoadedWallet | src/persistence/wallet.ts:13-20 | a missing wallet reads as 0 coins and no reward date |
| Wallet.CreditedExact | src/persistence/wallet.ts:34-40 | `addCoins` never leaves a negative balance, is exact when the sum is non-negative, and keeps the reward date |
| Wallet.ClaimPays | src/persistence/wallet.ts:43-61 | a claim pays 5 coins and records the date exactly when the last reward was on another date; otherwise it pays 0 and changes nothing |
| Wallet.ClaimOncePerDay | src/persistence/wallet.ts:51-53 | a second claim with the same date key pays nothing and changes nothing |
| Wallet.ClaimNextDay | src/persistence/wallet.ts:51-60 | a claim on a new date key after a claim pays 5 again |
| Wallet.WalletStore.constructor | src/persistence/wallet.ts:13-16 | the store starts empty |
| Wallet.WalletStore.GetWallet | src/persistence/wallet.ts:13-20 | returns the stored wallet or the default, storing the default when none is stored |
| Wallet.WalletStore.GetCoins | src/persistence/wallet.ts:22-26 | returns the loaded balance, 0 for a fresh wallet |
| Wallet.WalletStore.SetCoins | src/persistence/wallet.ts:28-32 | stores max(0, coins) |
| Wallet.WalletStore.AddCoins | src/persistence/wallet.ts:34-40 | stores and returns max(0, old + amount) |
| Wallet.WalletStore.ClaimDailyRewardIfEligible | src/persistence/wallet.ts:43-61 | returns and stores what the claim rules give for the loaded wallet |
| Purchase.TooFewCoinsChangesNothing | src/shop/purchase.ts:17-18 | with coins below the price, the purchase fails and changes neither store |
| Purchase.FullBagRefused | src/shop/purchase.ts:19-24 | a non-expand item is refused when used ≥ capacity, and nothing is paid |
| Purchase.ExpandAlwaysFits | src/shop/purchase.ts:22-44 | a capacity expansion succeeds whenever the coins suffice, even with a full bag, adding capacityExpand (default 5, never a decrease) |
| Purchase.SuccessPaysAndDelivers | src/shop/purchase.ts:25-62 | a success costs exactly the price; a non-expand success adds exactly one item and keeps the total within capacity |
| Purchase.SuccessShape | src/shop/purchase.ts:16-64 | a reported success means the coins sufficed, the item fitted, the switch delivered it, and the outcome is the paid wallet with the delivered inventory |
| Purchase.DeliveredOne | src/shop/purchase.ts:27-62 | delivering any item but a capacity expansion to a sound, normalised inventory adds exactly one item and keeps it sound, normalised and of the same capacity |
| Purchase.DeliverOne | src/shop/purchase.ts:28-59 | delivering one item of a dictionary adds one to the total of a sound record |
| Purchase.InsecticideChargedNotDelivered | src/shop/purchase.ts:25-64 | insecticide at 6 coins, bought with 6 coins, fails and leaves 0 coins |
| Purchase.DeliveredIffDeliverable | src/shop/purchase.ts:26-65 | delivery fails exactly for an unhandled type or an item lacking its id |
| Purchase.CheckedPurchaseOutcome | src/shop/purchase.ts:16-66 | succeeds exactly when the coins suffice, the bag has room and the item is deliverable; a failure changes neither wallet nor inventory; a success is the purchase as written |
| Purchase.CheckedAgreesWhenDeliverable | src/shop/purchase.ts:16-66 | for a deliverable item the checked purchase equals the one as written |
| Purchase.CountsOf | src/shop/purchase.ts:80-94 | used is the total item count and capacity defaults to 5 |
| Purchase.PurchaseItem | src/shop/purchase.ts:16-66 | the result and both stores are those of the purchase as written, from the loaded wallet and inventory |
| Purchase.CheckedPurchaseItem | src/shop/purchase.ts:16-66 | the corrected purchase over the two stores: an undeliverable item is refused before any coins are taken; the result and both stores are those of the checked outcome |
| Purchase.GetInventoryCounts | src/shop/purchase.ts:68-95 | reports the counts of the loaded inventory |
| Achievements.Award | src/persistence/achievements.ts:5-160 | coinsAwarded is always 0 or 2, and 2 exactly when the unlock just fired |
| Achievements.FirstBloomOnce | src/persistence/achievements.ts:83-92 | the first bloom pays only when not yet unlocked; a second call returns false and 0 and changes nothing |
| Achievements.CounterStep | src/persistence/achievements.ts:134-143 | the count rises by one; the unlock fires exactly when it has not fired and the new count reaches the goal |
| Achievements.UnlocksAtMostOnce | src/persistence/achievements.ts:131-164 | over any run of calls the unlock fires at most once, exactly when it had not fired and the run reaches the goal |
| Achievements.NoUnlocksOnceUnlocked | src/persistence/achievements.ts:136-154 | once unlocked, no later call fires the unlock |
| Achievements.BugRemovedStep | src/persistence/achievements.ts:131-146 | the bug count rises by 1; the unlock fires at 5 once; other counters are untouched |
| Achievements.WeedTrimmedStep | src/persistence/achievements.ts:149-164 | the weed count rises by 1; the unlock fires at 3 once; other counters are untouched |
| Achievements.FifthBugPays | src/persistence/achievements.ts:136-143 | from a fresh record, four removals pay nothing and five pay once |
| Achievements.VisitStreak | src/persistence/achievements.ts:95-128 | same day: nothing changes and nothing is paid; the day after, or a first visit: the streak grows by one; otherwise it resets to 1; the unlock fires exactly when not yet unlocked and the streak reaches 7 |
| Achievements.StreakUnlockAtMostOnce | src/persistence/achievements.ts:119-125 | the seven-day unlock fires at most once over any run of visits, and never once unlocked |
| Achievements.SeventhDayUnlocks | src/persistence/achievements.ts:110-125 | a visit the day after a six-day streak unlocks and pays 2 coins |
| Achievements.PlantSeedKeepsUnique | src/persistence/achievements.ts:174-182 | planted ids stay duplicate-free; an id is appended only if absent |
| Achievements.AchievementStore.constructor | src/persistence/achievements.ts:23-26 | the store starts empty |
| Achievements.AchievementStore.GetRecord | src/persistence/achievements.ts:23-41 | returns the stored record or the default, storing the default when none is stored |
| Achievements.AchievementStore.Pay | src/persistence/achievements.ts:91-160 | the wallet is credited 2 coins exactly when the unlock fired; otherwise it is untouched |
| Achievements.AchievementStore.UnlockFirstBloom | src/persistence/achievements.ts:83-92 | stores and returns the first-bloom step, and pays 2 coins exactly when it unlocks |
| Achievements.AchievementStore.RecordGardenVisit | src/persistence/achievements.ts:95-128 | stores and returns the visit step, and pays 2 coins exactly when the streak unlocks |
| Achievements.AchievementStore.IncrementBugsRemoved | src/persistence/achievements.ts:131-146 | stores and returns the bug step, and pays exactly on the unlock |
| Achievements.AchievementStore.IncrementWeedsTrimmed | src/persistence/achievements.ts:149-164 | stores and returns the weed step, and pays exactly on the unlock |
| Achievements.AchievementStore.GetPlantedSeedIds | src/persistence/achievements.ts:167-171 | returns the planted ids, or [] when the list is missing |
| Achievements.AchievementStore.AddPlantedSeedId | src/persistence/achievements.ts:174-182 | stores the record with the id appended if absent |
| DailyProgress.Find | src/persistence/dailyProgress.ts:25-44 | a found record has that date; none is found exactly when no record has that date |
| DailyProgress.UpsertFind | src/persistence/dailyProgress.ts:53 | a put record is read back, and other dates keep their records |
| DailyProgress.UpsertDistinct | src/persistence/dailyProgress.ts:53 | a put keeps one record per date |
| DailyProgress.TodayProgress | src/persistence/dailyProgress.ts:18-32 | the total is 20; with no record for today the result is 0 of 20 |
| DailyProgress.IncrementCapped | src/persistence/dailyProgress.ts:44-54 | the count is min(20, prev + 1); justCompleted holds exactly when prev was 19; completedAt is stamped at 20, otherwise kept from the stored record, and absent when there was none |
| DailyProgress.CompletedOnce | src/persistence/dailyProgress.ts:54 | over any run of calls a day is reported completed at most once, exactly when the run reaches 20 |
| DailyProgress.CompletedDates | src/persistence/dailyProgress.ts:72-74 | exactly the completed days, without repetition |
| DailyProgress.DistinctMultiplicity | src/persistence/dailyProgress.ts:75-76 | a list has no repeated value exactly when each value occurs at most once in its multiset |
| DailyProgress.DistinctPermutation | src/persistence/dailyProgress.ts:75-76 | sorting keeps the list free of repeated values |
| DailyProgress.Later | src/persistence/dailyProgress.ts:75-76 | `sort().reverse()` orders later days first |
| DailyProgress.StrictlyDescending | src/persistence/dailyProgress.ts:75-76 | a descending list without repeated values is strictly descending |
| DailyProgress.CompletedDays | src/persistence/dailyProgress.ts:72-76 | the completed days, strictly descending, latest first |
| DailyProgress.IndexOfDay | src/persistence/dailyProgress.ts:79 | `indexOf` finds the day, or returns -1 exactly when it is absent |
| DailyProgress.CountRun | src/persistence/dailyProgress.ts:88-106 | the loop counts the entries from `start` that step down by one day each, and stops at the first gap |
| DailyProgress.RunIsConsecutive | src/persistence/dailyProgress.ts:98-106 | the counted run is exactly the consecutive completed days ending at its first day |
| DailyProgress.LatestIsFirst | src/persistence/dailyProgress.ts:87 | the head of the list is the latest completed day |
| DailyProgress.RunFrom | src/persistence/dailyProgress.ts:98-106 | counting back from a completed day through the newest-first list of completed days yields a run of consecutive completed days ending there |
| DailyProgress.GetStreak | src/persistence/dailyProgress.ts:68-107 | today completed: the run of consecutive completed days ending today; else, when yesterday is the latest completed day, the run ending yesterday; else 0 |
| DailyProgress.SevenDayStreak | src/persistence/dailyProgress.ts:55-56 | a streak ending today is at least 7 exactly when each of the last seven days is completed |
| DailyProgress.DailyProgressStore.constructor | src/persistence/dailyProgress.ts:42 | the store starts empty |
| DailyProgress.DailyProgressStore.GetTodayProgress | src/persistence/dailyProgress.ts:18-32 | returns today's progress |
| DailyProgress.DailyProgressStore.IncrementTodayProgress | src/persistence/dailyProgress.ts:35-63 | stores today's incremented record; reports the count, 20 and justCompleted; justStreak7 holds exactly when justCompleted and each of the last seven days is completed |
| Assets.MaxFrame | src/garden/assets.ts:5-11 | tomato has 4 frames; every other seed has 5 |
| Assets.FrameClamp | src/garden/assets.ts:11-12 | the frame is stage + 1 clamped to 1..maxFrame: stage ≤ 0 gives 1, and stage ≥ maxFrame − 1 gives the last frame |
| Assets.FirstStageIsIcon | src/garden/assets.ts:12-18 | stage 0 or below gives the same path as the seed icon |
| Assets.FramePathDigits | src/garden/assets.ts:13 | the path is `/garden-assets/{id}/{id}_`, the frame's digits and `.png`, and the digits read back as the frame |
| Assets.SamePathIffSameFrame | src/garden/assets.ts:10-14 | two stages give the same path exactly when they give the same frame |

## Left out

- Floating point: a random value is its 32-bit numerator and `Math.floor(r * k)` is `n * k / 2^32` exactly. `wrongRate` is compared by cross-multiplication, not stored as a number.
- Statistics: `Math.random` is a nondeterministic draw. The 80/20 preference of `getNextSkillKey` and "mixed hits every operation" are not stated.
- Random.RandomSource.SetRandom: installs only seeded generators. `setRandom` with an arbitrary function is not modelled.
- Random.HashString: `charCodeAt` is modelled for characters of the Basic Multilingual Plane. A character outside it is two UTF-16 code units in JavaScript.
- Difficulty.RandomInt: assumes integer bounds. Fractional bounds, which `randomInt` accepts, are not modelled.
- Generator.GenerateQuestions and Generator.GenerateTodayQuestions: de-duplication can redraw forever (for example, additions on 0..0 with count 2). The model bounds the number of draws by `fuel` and reports whether the batch was filled. So it states partial correctness, not termination.
- Generator.GenerateTodayQuestions: the exception path of `try`/`finally` is not modelled, since no modelled operation throws.
- The unreachable `default` branches of the operation switches are not modelled. The operation type has exactly four values.
- `parseInt` on digit runs beyond 2^53 loses precision in JavaScript. The model reads digits exactly.
- Records: insertion order is modelled for every key. JavaScript lists integer-like keys first, in numeric order. Skill keys and item ids are never integer-like.
- Assets.MaxFrame: looks the seed up among the table's own keys. Inherited object properties (`SEED_MAX_FRAME["toString"]`) are not modelled. The stage is an integer, where the source accepts any number.
- `getSlowThresholdMs` is not part of this model. Its definition is missing from `src/adaptive/types.ts`, so it is a function parameter of Adaptive.UpdateWeight.
- The server-side branches (`typeof window === "undefined"`) are left out. Every operation is modelled as it runs in the browser.
- IndexedDB, `async`, and concurrent interleavings of read-modify-write operations are left out. Each store is an object whose operations run one at a time.
- Clocks and calendars are parameters. `Date.now()` is the parameter `now` and today's date key is the parameter `today`. Achievements take the day difference of two date keys as a function parameter. Daily progress uses integer day ordinals, so `Date` parsing and local-time formatting (`getTodayDateString`, `parseDate`, `daysBetween`) are not modelled.
- DailyProgress.GetStreak: requires that no two records share a date, which the date-keyed store guarantees.
- `getRecentBadgeDays` and `getAchievements` are read-only projections and are not modelled. Neither has a property beyond its field copying.
- Modules with no row in this table are not modelled. These are `src/persistence/garden.ts`, `gardenVisit.ts`, `dailyReward.ts`, `db.ts`, `sessions.ts`, `skills.ts` and `export-import.ts`, plus the UI pages and components, speech and sound. The catalog's items enter only as `ShopItem` values.
- Weaknesses.GetWeaknessStats: takes the stored attempts as a sequence instead of reading them from the store.

## Findings

| source | as written | input that shows it | evidently intended | confidence | as-written member | corrected member |
|---|---|---|---|---|---|---|
| src/shop/purchase.ts:25-64 | the price is deducted (line 25) before the switch decides whether the item can be delivered; insecticide (src/shop/catalog.ts:46) has no case, and a seed, tool, watering can or backpack item without its id falls to a failure return | buying insecticide (price 6) with 6 coins: the result is failure, the wallet drops to 0, and the inventory is unchanged | an item that cannot be delivered is refused before payment, leaving the wallet and inventory unchanged | not executed | Purchase.InsecticideChargedNotDelivered | Purchase.CheckedPurchaseOutcome |
| src/generator/difficulty.ts:46-52 | `generateTodayQuestions` (src/generator/index.ts:172-188) installs the date-seeded source, but only `pickOperation` reads it; `pick` and `randomInt` call `Math.random()` directly, so the operands of the daily set do not depend on the date alone | any date with count ≥ 1: the all-zero `Math.random()` stream and the stream alternating 0.99… and 84215046 / 2^32 give different first questions (for an addition, 0 + 0 against 50 + 1) | the same date gives the same set, as the comment at src/generator/index.ts:172 says: every draw of the daily set goes through `getRandom()` | not executed | Generator.TodayOperandsVary | Generator.GenerateTodayQuestionsSeeded |
