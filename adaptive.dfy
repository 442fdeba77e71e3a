/**
 * The adaptive weighting engine of src/adaptive/index.ts: a per-skill
 * integer weight that rises on mistakes and slow answers and falls on fast
 * correct ones, a split of the skills into a heavier and a lighter half,
 * and sampling that prefers the heavier half.
 */
module Adaptive {
  import opened Wrappers
  import opened Records
  import opened Sorting
  import opened Random
  import opened Generator

  const SLOW_RESPONSE_MS: int := 5000
  const WRONG_DELTA: int := 3
  const SLOW_CORRECT_DELTA: int := 1
  const FAST_CORRECT_DELTA: int := -1
  const MIN_WEIGHT: int := 0

  /**
   * `computeNewWeight(current, correct, responseTimeMs, thresholdMs)`: +3
   * when wrong, +1 when correct but slower than the threshold, otherwise
   * -1 but never below 0.
   */
  function ComputeNewWeight(w: int, correct: bool, responseMs: int, thresholdMs: int): (r: int)
    ensures !correct ==> r == w + 3
    ensures correct && responseMs > thresholdMs ==> r == w + 1
    ensures correct && responseMs <= thresholdMs ==> r == Max(0, w - 1)
  {
    if !correct then w + WRONG_DELTA
    else if responseMs > thresholdMs then w + SLOW_CORRECT_DELTA
    else Max(MIN_WEIGHT, w + FAST_CORRECT_DELTA)
  }

  /** A non-negative weight stays non-negative and moves by at most 3. */
  lemma WeightStaysNonNegative(w: int, correct: bool, responseMs: int, thresholdMs: int)
    requires w >= 0
    ensures 0 <= ComputeNewWeight(w, correct, responseMs, thresholdMs) <= w + 3
    ensures ComputeNewWeight(w, correct, responseMs, thresholdMs) >= w - 1
  {
  }

  /** A mistake weighs more than a slow answer, which weighs more than a fast one. */
  lemma OutcomesOrdered(w: int, slowMs: int, fastMs: int, thresholdMs: int)
    requires w >= 0 && fastMs <= thresholdMs < slowMs
    ensures ComputeNewWeight(w, false, fastMs, thresholdMs) > ComputeNewWeight(w, true, slowMs, thresholdMs)
    ensures ComputeNewWeight(w, true, slowMs, thresholdMs) > ComputeNewWeight(w, true, fastMs, thresholdMs)
  {
  }

  lemma ComputeNewWeightExamples()
    ensures ComputeNewWeight(0, false, 1000, SLOW_RESPONSE_MS) == 3
    ensures ComputeNewWeight(2, false, 9000, SLOW_RESPONSE_MS) == 5
    ensures ComputeNewWeight(0, true, 6000, SLOW_RESPONSE_MS) == 1
    ensures ComputeNewWeight(3, true, 1000, SLOW_RESPONSE_MS) == 2
    ensures ComputeNewWeight(0, true, 1000, SLOW_RESPONSE_MS) == 0
    ensures ComputeNewWeight(1, true, 5000, SLOW_RESPONSE_MS) == 0
  {
  }

  /** The weight of `k`, with 0 for an absent key (`weightsMap[k] ?? 0`). */
  function Weight(r: Record<int>, k: string): int {
    Get(r, k).GetOr(0)
  }

  /** `WeightsMap`: the skill-key to weight dictionary, updated in place. */
  class WeightsMap {
    var weights: Record<int>

    ghost predicate Valid()
      reads this
    {
      Records.Valid(weights)
    }

    constructor (init: Record<int>)
      requires Records.Valid(init)
      ensures weights == init && Valid()
    {
      weights := init;
    }
  }

  /**
   * `updateWeight(weightsMap, skillKey, correct, responseTimeMs)`: writes the
   * new weight of `key` into the map and returns the same map; `thresholdMs`
   * stands for `getSlowThresholdMs`.
   */
  method UpdateWeight(m: WeightsMap, key: string, correct: bool, responseMs: int, thresholdMs: string -> int)
    returns (r: WeightsMap)
    requires m.Valid()
    modifies m
    ensures r == m && m.Valid()
    ensures m.weights == Put(old(m.weights), key,
      ComputeNewWeight(Weight(old(m.weights), key), correct, responseMs, thresholdMs(key)))
    ensures Weight(m.weights, key) ==
      ComputeNewWeight(Weight(old(m.weights), key), correct, responseMs, thresholdMs(key))
    ensures forall j :: j != key ==> Get(m.weights, j) == Get(old(m.weights), j)
  {
    var current := Weight(m.weights, key);
    var threshold := thresholdMs(key);
    var w := ComputeNewWeight(current, correct, responseMs, threshold);
    KeysPut(m.weights, key, w);
    forall j ensures Get(Put(m.weights, key, w), j) == if j == key then Some(w) else Get(m.weights, j) {
      GetPut(m.weights, key, w, j);
    }
    m.weights := Put(m.weights, key, w);
    r := m;
  }

  /** The comparator `(a, b) => (weightsMap[b] ?? 0) - (weightsMap[a] ?? 0)`, as "a sorts no later than b". */
  function ByWeight(r: Record<int>): (geq: (string, string) -> bool) {
    (x: string, y: string) => Weight(r, x) >= Weight(r, y)
  }

  lemma ByWeightTotalPreorder(r: Record<int>, dom: set<string>)
    ensures TotalPreorderOn(ByWeight(r), dom)
  {
  }

  /** `Math.ceil(n / 2)` for a natural `n`. */
  function HalfUp(n: nat): nat {
    (n + 1) / 2
  }

  /**
   * `splitPools(weightsMap)`: the keys sorted by descending weight (ties in
   * key order), the first `max(1, ceil(n / 2))` as the high pool and the rest
   * as the low pool.
   */
  function SplitPools(r: Record<int>): (pools: (seq<string>, seq<string>))
    ensures |r| == 0 ==> pools.0 == [] && pools.1 == []
    ensures |pools.0| == HalfUp(|r|) && |pools.0| + |pools.1| == |r|
    ensures multiset(pools.0 + pools.1) == multiset(Keys(r))
  {
    var keys := Keys(r);
    if |keys| == 0 then ([], [])
    else
      var sorted := SortDesc(keys, ByWeight(r));
      var half := Max(1, HalfUp(|sorted|));
      SplitAt(sorted, half);
      (sorted[..half], sorted[half..])
  }

  lemma SplitAt(s: seq<string>, i: nat)
    requires i <= |s|
    ensures s[..i] + s[i..] == s
  {
  }

  /** Every key of the high pool weighs at least as much as every key of the low pool. */
  lemma SplitPoolsOrdered(r: Record<int>)
    ensures forall h, l :: h in SplitPools(r).0 && l in SplitPools(r).1 ==> Weight(r, h) >= Weight(r, l)
  {
    var keys := Keys(r);
    if |keys| > 0 {
      var geq := ByWeight(r);
      var sorted := SortDesc(keys, geq);
      var dom := set k | k in keys;
      ByWeightTotalPreorder(r, dom);
      SortDescSorted(keys, geq, dom);
      var half := Max(1, HalfUp(|r|));
      assert SplitPools(r) == (sorted[..half], sorted[half..]);
      SortedSplit(sorted, geq, half);
    }
  }

  /** `pick(arr)` of the adaptive module: `None` for an empty array, else the element at the index drawn with `n`. */
  method PickKey(math: MathRandom, arr: seq<string>) returns (k: Option<string>, n: U32)
    modifies math
    ensures k.None? <==> |arr| == 0
    ensures k.Some? ==> k.value == arr[Scale(n, |arr|)]
    ensures |arr| == 0 ==> math.pos == old(math.pos)
    ensures |arr| > 0 ==> n == math.draws(old(math.pos)) && math.pos == old(math.pos) + 1
  {
    if |arr| == 0 {
      return None, 0;
    }
    n := math.Next();
    k := Some(arr[Scale(n, |arr|)]);
  }

  /** `Math.random() < 0.8` for a draw with numerator `n`. */
  predicate PrefersHigh(n: U32) {
    5 * n < 4 * TWO32
  }

  /**
   * The pool `getNextSkillKey` picks from after the routing draw `n`: the
   * high pool, unless the draw is at least 0.8 and the low pool is not empty.
   */
  function ChosenPool(high: seq<string>, low: seq<string>, n: U32): seq<string> {
    if PrefersHigh(n) || |low| == 0 then high else low
  }

  /** The pool chosen from the split of a non-empty map is a non-empty list of its keys. */
  lemma ChosenPoolKeys(r: Record<int>, n: U32)
    ensures var pools := SplitPools(r);
      && (|r| > 0 ==> |ChosenPool(pools.0, pools.1, n)| > 0)
      && (forall x :: x in ChosenPool(pools.0, pools.1, n) ==> x in Keys(r))
  {
    var pools := SplitPools(r);
    forall x | x in ChosenPool(pools.0, pools.1, n)
      ensures x in Keys(r)
    {
      assert x in pools.0 + pools.1;
      assert x in multiset(pools.0 + pools.1);
    }
  }

  /**
   * A draw below 0.8 chooses keys that weigh at least as much as every key
   * left in the low pool.
   */
  lemma ChosenPoolHeavier(r: Record<int>, n: U32)
    requires PrefersHigh(n)
    ensures var pools := SplitPools(r);
      forall h, l :: h in ChosenPool(pools.0, pools.1, n) && l in pools.1 ==> Weight(r, h) >= Weight(r, l)
  {
    SplitPoolsOrdered(r);
  }

  /** A map with a single key always chooses a pool holding just that key. */
  lemma SingleKeyPool(r: Record<int>, n: U32)
    requires |r| == 1
    ensures var pools := SplitPools(r); ChosenPool(pools.0, pools.1, n) == [r[0].key]
  {
    var pools := SplitPools(r);
    assert |pools.0| == 1 && |pools.1| == 0;
    assert Keys(r) == [r[0].key];
    assert multiset(pools.0) == multiset{r[0].key} by {
      assert pools.0 + pools.1 == pools.0;
    }
    assert pools.0[0] in multiset(pools.0);
  }

  /**
   * The key `getNextSkillKey` picks from the pools with the draws of `s`
   * from position `i` on, and the position after the draws it used.
   */
  function PickFromPoolsAt(high: seq<string>, low: seq<string>, s: Stream, i: nat): (Option<string>, nat) {
    if |high| == 0 && |low| == 0 then (None, i)
    else if |high| == 0 then (Some(low[Scale(s(i), |low|)]), i + 1)
    else if |low| == 0 then (Some(high[Scale(s(i), |high|)]), i + 1)
    else
      var pool := ChosenPool(high, low, s(i));
      (Some(pool[Scale(s(i + 1), |pool|)]), i + 2)
  }

  /** `getNextSkillKey(weightsMap)` with the draws of `s` from position `i` on. */
  function NextSkillKeyAt(r: Record<int>, s: Stream, i: nat): (Option<string>, nat) {
    PickFromPoolsAt(SplitPools(r).0, SplitPools(r).1, s, i)
  }

  /**
   * Whatever the draws, the key picked is a key of the map, and exactly
   * when the map is not empty; a single-key map uses one draw and picks
   * its key, a larger one uses two draws, the first one routing.
   */
  lemma NextSkillKeyAtFacts(r: Record<int>, s: Stream, i: nat)
    ensures var (k, j) := NextSkillKeyAt(r, s, i);
      && (k.None? <==> |r| == 0)
      && (k.Some? ==> k.value in Keys(r))
      && (|r| == 0 ==> j == i)
      && (|r| == 1 ==> j == i + 1 && k == Some(r[0].key))
      && (|r| >= 2 ==> j == i + 2)
      && (|r| >= 2 ==> var pool := ChosenPool(SplitPools(r).0, SplitPools(r).1, s(i));
            k.Some? && k.value == pool[Scale(s(i + 1), |pool|)])
  {
    var pools := SplitPools(r);
    if |r| >= 2 {
      assert |pools.1| > 0;
      ChosenPoolKeys(r, s(i));
    } else if |r| == 1 {
      SingleKeyPool(r, s(i));
    }
  }

  /**
   * The choice of `getNextSkillKey` once the pools are known: `None` when
   * both are empty, the other pool when one is empty, and otherwise the
   * pool chosen by the routing draw `n`; then the key at index
   * `floor(d * |pool|)`. With both pools non-empty, `n` and `d` are the next
   * two draws of `Math.random()`; otherwise `d` is the next one.
   */
  method PickFromPools(math: MathRandom, high: seq<string>, low: seq<string>) returns (k: Option<string>, n: U32, d: U32)
    modifies math
    ensures k.None? <==> |high| == 0 && |low| == 0
    ensures |high| > 0 ==> k.Some? && k.value == ChosenPool(high, low, n)[Scale(d, |ChosenPool(high, low, n)|)]
    ensures |high| == 0 && k.Some? ==> k.value == low[Scale(d, |low|)]
    ensures k.None? ==> math.pos == old(math.pos)
    ensures |high| > 0 && |low| > 0 ==>
      n == math.draws(old(math.pos)) && d == math.draws(old(math.pos) + 1) && math.pos == old(math.pos) + 2
    ensures (|high| == 0) != (|low| == 0) ==> d == math.draws(old(math.pos)) && math.pos == old(math.pos) + 1
    ensures (k, math.pos) == PickFromPoolsAt(high, low, math.draws, old(math.pos))
  {
    n := 0;
    if |high| == 0 && |low| == 0 {
      return None, n, 0;
    }
    if |high| == 0 {
      k, d := PickKey(math, low);
    } else if |low| == 0 {
      k, d := PickKey(math, high);
    } else {
      n := math.Next();
      if PrefersHigh(n) {
        k, d := PickKey(math, high);
      } else {
        k, d := PickKey(math, low);
      }
    }
  }

  /**
   * `getNextSkillKey(weightsMap)`: `None` for an empty map; otherwise the
   * key at index `floor(d * |pool|)` of the pool chosen by the routing draw
   * `n` (no routing draw is made when a pool is empty). The two draws are
   * returned so that the choice can be stated: with two keys or more `n`
   * and `d` are the next two draws of `Math.random()`, with one key `d` is
   * the next draw, and an empty map draws nothing.
   */
  method GetNextSkillKey(math: MathRandom, r: Record<int>) returns (k: Option<string>, n: U32, d: U32)
    modifies math
    ensures (k, math.pos) == NextSkillKeyAt(r, math.draws, old(math.pos))
    ensures |r| >= 2 ==>
      n == math.draws(old(math.pos)) && d == math.draws(old(math.pos) + 1) && math.pos == old(math.pos) + 2
    ensures |r| == 1 ==> d == math.draws(old(math.pos)) && math.pos == old(math.pos) + 1
    ensures |r| == 0 ==> math.pos == old(math.pos)
    ensures k.None? <==> |r| == 0
    ensures var pools := SplitPools(r); var pool := ChosenPool(pools.0, pools.1, n);
      k.Some? ==> |pool| > 0 && k.value == pool[Scale(d, |pool|)]
    ensures k.Some? ==> k.value in Keys(r)
    ensures |r| == 1 ==> k == Some(r[0].key)
  {
    var pools := SplitPools(r);
    assert |r| >= 2 ==> |pools.1| > 0;
    k, n, d := PickFromPools(math, pools.0, pools.1);
    ChosenPoolKeys(r, n);
    if |r| == 1 {
      SingleKeyPool(r, n);
    }
  }

  /** A question reconstructed from its own key, which is a key of the map. */
  predicate FromMapKey(q: Question, r: Record<int>, o: Options) {
    q.skillKey in Keys(r)
    && GenerateQuestionFromSkillKey(q.skillKey, o.rangeMin, Some(o.rangeMax)) == Some(q)
  }

  /**
   * What each sampled question is: a reconstruction of a key of the map or
   * a freshly generated question, well-formed either way, and always fresh
   * when the map is empty.
   */
  predicate Sampled(q: Question, r: Record<int>, o: Options) {
    && (FromMapKey(q, r, o) || Generated(q, o))
    && WellFormed(q)
    && (|r| == 0 ==> Generated(q, o))
  }

  /** The `Math.random()` stream of a cursor and how many of its draws are used up. */
  function MathPart(c: Cursor): (Stream, nat) {
    match c
    case Shared(s, i) => (s, i)
    case Split(_, _, ms, mi) => (ms, mi)
  }

  /** The cursor `c` once `Math.random()` has been drawn up to position `j`. */
  function WithMathPos(c: Cursor, j: nat): Cursor {
    match c
    case Shared(s, _) => Shared(s, j)
    case Split(os, oi, ms, _) => Split(os, oi, ms, j)
  }

  /** `skillKey ? generateQuestionFromSkillKey(skillKey, range) : null`. */
  function FromKey(key: Option<string>, o: Options): Option<Question> {
    if key.Some? && key.value != "" then GenerateQuestionFromSkillKey(key.value, o.rangeMin, Some(o.rangeMax))
    else None
  }

  /**
   * One round of `sampleQuestions` from cursor `c`: the key drawn from
   * `Math.random()`, then its reconstruction, or a question drawn by
   * `gen` (`generateQuestion` in the source, `StepOf(o)`) when there is
   * no key or it is rejected.
   */
  function SampleStep(r: Record<int>, o: Options, gen: Cursor -> (Question, Cursor), c: Cursor): (Question, Cursor) {
    var picked := NextSkillKeyAt(r, MathPart(c).0, MathPart(c).1);
    var c1 := WithMathPos(c, picked.1);
    var fromKey := FromKey(picked.0, o);
    if fromKey.Some? then (fromKey.value, c1) else gen(c1)
  }

  /** `n` rounds drawn by `step` from cursor `c`, and the cursor after them. */
  function SampleBatch(step: Cursor -> (Question, Cursor), c: Cursor, n: nat): (seq<Question>, Cursor)
    decreases n
  {
    if n == 0 then ([], c)
    else
      var st := step(c);
      var rest := SampleBatch(step, st.1, n - 1);
      ([st.0] + rest.0, rest.1)
  }

  /** A round of `sampleQuestions` for a fixed map and options, as a function of the cursor. */
  function SampleStepOf(r: Record<int>, o: Options): Cursor -> (Question, Cursor) {
    c => SampleStep(r, o, StepOf(o), c)
  }

  /** The empty key matches no pattern, so it is never reconstructed. */
  lemma EmptyKeyRejected(rangeMin: Option<int>, rangeMax: Option<int>)
    ensures GenerateQuestionFromSkillKey("", rangeMin, rangeMax).None?
  {
    forall op ensures SplitKey("", Prefix(op), Separator(op)).None? {
      assert |Prefix(op)| == 4;
    }
    UnmatchedKeyRejected("", rangeMin, rangeMax);
  }

  /** A drawn key is a key of the map. */
  lemma NextSkillKeyIsKey(r: Record<int>, s: Stream, i: nat)
    ensures NextSkillKeyAt(r, s, i).0.Some? ==> NextSkillKeyAt(r, s, i).0.value in Keys(r)
  {
    NextSkillKeyAtFacts(r, s, i);
  }

  /**
   * The drawn key is used whenever it reconstructs, and then the question
   * comes from a key of the map; otherwise the question is a fresh one
   * drawn after the key's draws.
   */
  lemma SampleStepUsesKey(r: Record<int>, o: Options, gen: Cursor -> (Question, Cursor), c: Cursor)
    ensures var picked := NextSkillKeyAt(r, MathPart(c).0, MathPart(c).1);
      var c1 := WithMathPos(c, picked.1);
      && (picked.0.Some? && GenerateQuestionFromSkillKey(picked.0.value, o.rangeMin, Some(o.rangeMax)).Some? ==>
            SampleStep(r, o, gen, c) == (GenerateQuestionFromSkillKey(picked.0.value, o.rangeMin, Some(o.rangeMax)).value, c1)
            && FromMapKey(SampleStep(r, o, gen, c).0, r, o))
      && (picked.0.None? || GenerateQuestionFromSkillKey(picked.0.value, o.rangeMin, Some(o.rangeMax)).None? ==>
            SampleStep(r, o, gen, c) == gen(c1))
  {
    NextSkillKeyIsKey(r, MathPart(c).0, MathPart(c).1);
    EmptyKeyRejected(o.rangeMin, Some(o.rangeMax));
  }

  /** With an empty map no key is drawn: each round is a plain fresh question. */
  lemma SampleStepEmptyMap(r: Record<int>, o: Options, gen: Cursor -> (Question, Cursor), c: Cursor)
    requires |r| == 0
    ensures SampleStep(r, o, gen, c) == gen(c)
  {
    NextSkillKeyAtFacts(r, MathPart(c).0, MathPart(c).1);
    assert WithMathPos(c, MathPart(c).1) == c;
  }

  /** Every round of `sampleQuestions` yields a `Sampled` question. */
  lemma SampleStepSampled(r: Record<int>, o: Options, c: Cursor)
    ensures Sampled(SampleStep(r, o, StepOf(o), c).0, r, o)
  {
    var picked := NextSkillKeyAt(r, MathPart(c).0, MathPart(c).1);
    SampleStepUsesKey(r, o, StepOf(o), c);
    StepGenerated(o, WithMathPos(c, picked.1));
    NextSkillKeyAtFacts(r, MathPart(c).0, MathPart(c).1);
  }

  /** One more round appends the question drawn from the cursor the batch ends at. */
  lemma {:induction false} SampleBatchSnoc(step: Cursor -> (Question, Cursor), c: Cursor, n: nat)
    ensures var b := SampleBatch(step, c, n);
      SampleBatch(step, c, n + 1) == (b.0 + [step(b.1).0], step(b.1).1)
    decreases n
  {
    var st := step(c);
    if n == 0 {
      assert SampleBatch(step, c, 0) == ([], c);
      assert SampleBatch(step, c, 1) == ([st.0] + [], st.1);
      assert [st.0] + [] == [] + [st.0];
    } else {
      SampleBatchSnoc(step, st.1, n - 1);
      var b := SampleBatch(step, st.1, n - 1);
      assert SampleBatch(step, c, n) == ([st.0] + b.0, b.1);
      assert SampleBatch(step, st.1, n) == (b.0 + [step(b.1).0], step(b.1).1);
      assert [st.0] + (b.0 + [step(b.1).0]) == ([st.0] + b.0) + [step(b.1).0];
    }
  }

  /** What holds of every round's question holds of every question of a batch. */
  lemma {:induction false} SampleBatchKeeps(step: Cursor -> (Question, Cursor), c: Cursor, n: nat, p: Question -> bool)
    requires forall c' :: p(step(c').0)
    ensures |SampleBatch(step, c, n).0| == n
    ensures forall k :: 0 <= k < n ==> p(SampleBatch(step, c, n).0[k])
    decreases n
  {
    if n > 0 {
      SampleBatchKeeps(step, step(c).1, n - 1, p);
    }
  }

  /** A batch of `n` rounds of `sampleQuestions` holds `n` questions, each one `Sampled`. */
  lemma SampleBatchSampled(r: Record<int>, o: Options, c: Cursor, n: nat)
    ensures |SampleBatch(SampleStepOf(r, o), c, n).0| == n
    ensures forall k :: 0 <= k < n ==> Sampled(SampleBatch(SampleStepOf(r, o), c, n).0[k], r, o)
  {
    forall c' ensures Sampled(SampleStepOf(r, o)(c').0, r, o) {
      SampleStepSampled(r, o, c');
    }
    SampleBatchKeeps(SampleStepOf(r, o), c, n, q => Sampled(q, r, o));
  }

  /**
   * When every key of a non-empty map reconstructs, no question of a batch
   * is freshly generated: each one is the reconstruction of a key of the map.
   */
  lemma SampleBatchFromMap(r: Record<int>, o: Options, c: Cursor, n: nat)
    requires |r| > 0
    requires forall key :: key in Keys(r) ==> GenerateQuestionFromSkillKey(key, o.rangeMin, Some(o.rangeMax)).Some?
    ensures |SampleBatch(SampleStepOf(r, o), c, n).0| == n
    ensures forall k :: 0 <= k < n ==> FromMapKey(SampleBatch(SampleStepOf(r, o), c, n).0[k], r, o)
  {
    forall c' ensures FromMapKey(SampleStepOf(r, o)(c').0, r, o) {
      NextSkillKeyAtFacts(r, MathPart(c').0, MathPart(c').1);
      SampleStepUsesKey(r, o, StepOf(o), c');
    }
    SampleBatchKeeps(SampleStepOf(r, o), c, n, q => FromMapKey(q, r, o));
  }

  /** A round once its key `key` is drawn and `Math.random()` has reached cursor `c1`. */
  lemma SampleStepAfterKey(r: Record<int>, o: Options, gen: Cursor -> (Question, Cursor), c: Cursor,
                           key: Option<string>, c1: Cursor)
    requires key == NextSkillKeyAt(r, MathPart(c).0, MathPart(c).1).0
    requires c1 == WithMathPos(c, NextSkillKeyAt(r, MathPart(c).0, MathPart(c).1).1)
    ensures SampleStep(r, o, gen, c) == if FromKey(key, o).Some? then (FromKey(key, o).value, c1) else gen(c1)
  {
  }

  /**
   * `fromKey ?? generateQuestion(opts)` for the key drawn: the key's
   * reconstruction when it is non-empty and accepted, otherwise a fresh
   * question from the current draws.
   */
  method QuestionFor(rng: RandomSource, key: Option<string>, o: Options) returns (q: Question)
    requires rng.Valid()
    modifies rng.seeded, rng.math
    ensures rng.seeded == old(rng.seeded) && rng.Valid()
    ensures FromKey(key, o).Some? ==>
      q == FromKey(key, o).value && rng.CursorFor(MathRandomCall) == old(rng.CursorFor(MathRandomCall))
    ensures FromKey(key, o).None? ==>
      (q, rng.CursorFor(MathRandomCall)) == StepOf(o)(old(rng.CursorFor(MathRandomCall)))
  {
    var fromKey := None;
    if key.Some? && key.value != "" {
      fromKey := GenerateQuestionFromSkillKey(key.value, o.rangeMin, Some(o.rangeMax));
    }
    if fromKey.Some? {
      q := fromKey.value;
    } else {
      q := GenerateQuestion(rng, MathRandomCall, o);
    }
  }

  /** One round of `sampleQuestions`: a sampled key's question, or a fresh one. */
  method SampleOne(rng: RandomSource, r: Record<int>, o: Options) returns (q: Question)
    requires rng.Valid()
    modifies rng.seeded, rng.math
    ensures rng.seeded == old(rng.seeded) && rng.Valid()
    ensures (q, rng.CursorFor(MathRandomCall)) == SampleStep(r, o, StepOf(o), old(rng.CursorFor(MathRandomCall)))
    ensures Sampled(q, r, o)
  {
    ghost var c := rng.CursorFor(MathRandomCall);
    var key, _, _ := GetNextSkillKey(rng.math, r);
    ghost var c1 := rng.CursorFor(MathRandomCall);
    SampleStepAfterKey(r, o, StepOf(o), c, key, c1);
    q := QuestionFor(rng, key, o);
    SampleStepSampled(r, o, c);
  }

  /**
   * `step` draws one round as `sampleQuestions` does; the fact is used only
   * where a `SampleStep` is already in view.
   */
  ghost predicate SamplesAs(step: Cursor -> (Question, Cursor), r: Record<int>, o: Options) {
    forall c {:trigger SampleStep(r, o, StepOf(o), c)} :: step(c) == SampleStep(r, o, StepOf(o), c)
  }

  /** One round of `sampleQuestions`, its draws stated through a step function that draws as it does. */
  method SampleOneBy(rng: RandomSource, r: Record<int>, o: Options, ghost step: Cursor -> (Question, Cursor))
    returns (q: Question)
    requires rng.Valid() && SamplesAs(step, r, o)
    modifies rng.seeded, rng.math
    ensures rng.seeded == old(rng.seeded) && rng.Valid()
    ensures (q, rng.CursorFor(MathRandomCall)) == step(old(rng.CursorFor(MathRandomCall)))
  {
    q := SampleOne(rng, r, o);
  }

  /** The loop of `sampleQuestions`: `n` rounds of sampling from the current draws. */
  method SampleRounds(rng: RandomSource, r: Record<int>, o: Options, n: nat) returns (qs: seq<Question>)
    requires rng.Valid()
    modifies rng.seeded, rng.math
    ensures rng.seeded == old(rng.seeded) && rng.Valid()
    ensures (qs, rng.CursorFor(MathRandomCall)) == SampleBatch(SampleStepOf(r, o), old(rng.CursorFor(MathRandomCall)), n)
  {
    ghost var c0 := rng.CursorFor(MathRandomCall);
    ghost var step := SampleStepOf(r, o);
    assert SamplesAs(step, r, o);
    qs := [];
    while |qs| < n
      invariant |qs| <= n
      invariant rng.seeded == old(rng.seeded) && rng.Valid()
      invariant SampleBatch(step, c0, |qs|) == (qs, rng.CursorFor(MathRandomCall))
      decreases n - |qs|
    {
      var q := SampleOneBy(rng, r, o, step);
      SampleBatchSnoc(step, c0, |qs|);
      qs := qs + [q];
    }
  }

  /**
   * `sampleQuestions(weightsMap, count, options)`: `count` rounds of
   * sampling, the map only read; each question is the reconstruction of
   * the key drawn when that key is non-empty and accepted, otherwise a
   * fresh one.
   */
  method SampleQuestions(rng: RandomSource, m: WeightsMap, count: int, o: Options) returns (qs: seq<Question>)
    requires o.count.None? && o.skillKey.None?
    requires rng.Valid()
    modifies rng.seeded, rng.math
    ensures rng.seeded == old(rng.seeded) && rng.Valid()
    ensures (qs, rng.CursorFor(MathRandomCall)) ==
      SampleBatch(SampleStepOf(m.weights, o), old(rng.CursorFor(MathRandomCall)), Max(count, 0))
    ensures |qs| == Max(count, 0)
    ensures forall k :: 0 <= k < |qs| ==> Sampled(qs[k], m.weights, o)
  {
    ghost var c0 := rng.CursorFor(MathRandomCall);
    qs := SampleRounds(rng, m.weights, o, Max(count, 0));
    SampleBatchSampled(m.weights, o, c0, Max(count, 0));
  }

  lemma GeneratedWellFormed(q: Question, o: Options)
    requires Generated(q, o)
    ensures WellFormed(q)
  {
  }
}
