/**
 * Question building of src/generator/index.ts: skill keys, reconstruction of
 * a question from its key, single and batched generation, and the daily set
 * drawn with a date-seeded operation stream.
 */
module Generator {
  import opened Wrappers
  import opened Decimal
  import opened Random
  import opened Difficulty
  import opened Text

  datatype Operation = Add | Sub | Mul | Div

  /** `GenerateQuestionOptions['operation']`: one operation or `'mixed'`. */
  datatype OperationOption = Fixed(op: Operation) | Mixed

  /** `GenerateQuestionOptions`; optional fields are `Option`s. */
  datatype Options = Options(
    operation: OperationOption,
    rangeMin: Option<int>,
    rangeMax: int,
    difficulty: Option<Difficulty>,
    count: Option<int>,
    skillKey: Option<string>)

  /** `Question`; `hasCarry` is present on additions and `hasBorrow` on subtractions. */
  datatype Question = Question(
    a: int,
    b: int,
    op: Operation,
    answer: int,
    skillKey: string,
    hasCarry: Option<bool>,
    hasBorrow: Option<bool>)

  /** `OPS`, the order `pickOperation` indexes into. */
  const OPS: seq<Operation> := [Add, Sub, Mul, Div]

  /** The answer fits the operation and the carry/borrow flags are those of the operands. */
  predicate WellFormed(q: Question) {
    match q.op
    case Add => q.answer == q.a + q.b && q.hasCarry == Some(HasCarry(q.a, q.b)) && q.hasBorrow.None?
    case Sub => q.answer == q.a - q.b && q.hasBorrow == Some(HasBorrow(q.a, q.b)) && q.hasCarry.None?
    case Mul => q.answer == q.a * q.b && q.hasCarry.None? && q.hasBorrow.None?
    case Div => q.b != 0 && q.a == q.b * q.answer && q.hasCarry.None? && q.hasBorrow.None?
  }

  // ---------------------------------------------------------------------------
  // Skill keys

  function Prefix(op: Operation): string {
    match op
    case Add => "add_"
    case Sub => "sub_"
    case Mul => "mul_"
    case Div => "div_"
  }

  /** The character between the operands: `x` for products, `_` otherwise. */
  function Separator(op: Operation): char {
    if op == Mul then 'x' else '_'
  }

  /** `skillKeyAdd`, `skillKeySub`, `skillKeyMul` and `skillKeyDiv`. */
  function SkillKeyFor(op: Operation, a: int, b: int): (key: string)
    ensures |key| > |Prefix(op)| && key[..|Prefix(op)|] == Prefix(op)
  {
    Prefix(op) + IntToString(a) + [Separator(op)] + IntToString(b)
  }

  /**
   * The regular expression `^<prefix>(\d+)<sep>(\d+)$`: the two digit runs of
   * a matching key.
   */
  function SplitKey(key: string, prefix: string, sep: char): (r: Option<(string, string)>)
    ensures r.Some? ==> |r.value.0| > 0 && |r.value.1| > 0
    ensures r.Some? ==> AllDigits(r.value.0) && AllDigits(r.value.1)
    ensures r.Some? ==> key == prefix + r.value.0 + [sep] + r.value.1
  {
    if |key| < |prefix| || key[..|prefix|] != prefix then None
    else
      var rest := key[|prefix|..];
      var i := IndexOf(rest, sep);
      if i <= 0 || i == |rest| - 1 then None
      else
        var left, right := rest[..i], rest[i + 1..];
        if AllDigits(left) && AllDigits(right) then
          assert rest == left + [sep] + right;
          assert key == prefix + rest;
          Some((left, right))
        else None
  }

  /** Every key of the pattern's form matches it, with its own digit runs. */
  lemma SplitKeyComplete(prefix: string, l: string, sep: char, r: string)
    requires !IsDigit(sep)
    requires |l| > 0 && |r| > 0 && AllDigits(l) && AllDigits(r)
    ensures SplitKey(prefix + l + [sep] + r, prefix, sep) == Some((l, r))
  {
    var key := prefix + l + [sep] + r;
    assert key[..|prefix|] == prefix;
    var rest := key[|prefix|..];
    assert rest == l + [sep] + r;
    IndexOfFirst(l, sep, r);
    assert rest[..|l|] == l && rest[|l| + 1..] == r;
  }

  /** The operands of a key of `op`'s pattern, as `parseInt` reads them. */
  function MatchOp(key: string, op: Operation): (r: Option<(nat, nat)>)
    ensures r.Some? <==> SplitKey(key, Prefix(op), Separator(op)).Some?
  {
    match SplitKey(key, Prefix(op), Separator(op))
    case None => None
    case Some((l, r)) => Some((DigitsValue(l), DigitsValue(r)))
  }

  /** The patterns tried by `generateQuestionFromSkillKey`, in its order. */
  function ParseSkillKey(key: string): (r: Option<(Operation, nat, nat)>)
    ensures r.Some? ==> MatchOp(key, r.value.0) == Some((r.value.1, r.value.2))
    ensures r.None? <==> forall op :: MatchOp(key, op).None?
  {
    if MatchOp(key, Add).Some? then Some((Add, MatchOp(key, Add).value.0, MatchOp(key, Add).value.1))
    else if MatchOp(key, Sub).Some? then Some((Sub, MatchOp(key, Sub).value.0, MatchOp(key, Sub).value.1))
    else if MatchOp(key, Mul).Some? then Some((Mul, MatchOp(key, Mul).value.0, MatchOp(key, Mul).value.1))
    else if MatchOp(key, Div).Some? then Some((Div, MatchOp(key, Div).value.0, MatchOp(key, Div).value.1))
    else None
  }

  /** A key carrying one operation's prefix matches no other operation's pattern. */
  lemma OtherPrefixNoMatch(key: string, op: Operation, other: Operation)
    requires |key| >= 4 && key[..4] == Prefix(op) && other != op
    ensures MatchOp(key, other).None?
  {
    assert |Prefix(other)| == 4;
    assert key[0] == Prefix(op)[0] != Prefix(other)[0];
    assert key[..|Prefix(other)|] != Prefix(other);
  }

  /** When exactly one pattern matches, parsing reports that operation. */
  lemma ParseSingleMatch(key: string, op: Operation, a: nat, b: nat)
    requires MatchOp(key, op) == Some((a, b))
    requires forall other :: other != op ==> MatchOp(key, other).None?
    ensures ParseSkillKey(key) == Some((op, a, b))
  {
  }

  /** A key built from natural operands parses back to its operation and operands. */
  lemma ParseSkillKeyRoundTrip(op: Operation, a: nat, b: nat)
    ensures ParseSkillKey(SkillKeyFor(op, a, b)) == Some((op, a, b))
  {
    var key := SkillKeyFor(op, a, b);
    var l, r := NatToString(a), NatToString(b);
    assert key == Prefix(op) + l + [Separator(op)] + r;
    SplitKeyComplete(Prefix(op), l, Separator(op), r);
    NatToStringRoundTrip(a);
    NatToStringRoundTrip(b);
    assert MatchOp(key, op) == Some((a, b));
    forall other | other != op
      ensures MatchOp(key, other).None?
    {
      OtherPrefixNoMatch(key, op, other);
    }
    ParseSingleMatch(key, op, a, b);
  }

  /** The range checks of `generateQuestionFromSkillKey` (every product is accepted). */
  predicate Accepts(op: Operation, a: nat, b: nat, rangeMin: int, rangeMax: int) {
    match op
    case Add => a + b <= rangeMax * 2 && a >= rangeMin && b >= rangeMin
    case Sub => a >= b && a <= rangeMax && b >= rangeMin
    case Mul => true
    case Div => b != 0 && a % b == 0
  }

  /** The fixed question for parsed operands, or `None` when the range checks fail. */
  function Reconstruct(op: Operation, a: nat, b: nat, key: string, lo: int, hi: int): (q: Option<Question>)
    ensures q.Some? <==> Accepts(op, a, b, lo, hi)
    ensures q.Some? ==> WellFormed(q.value) && q.value.skillKey == key
    ensures q.Some? ==> q.value.op == op && q.value.a == a && q.value.b == b
  {
    match op
    case Add =>
      if a + b > hi * 2 || a < lo || b < lo then None
      else Some(Question(a, b, Add, a + b, key, Some(HasCarry(a, b)), None))
    case Sub =>
      if a < b || a > hi || b < lo then None
      else Some(Question(a, b, Sub, a - b, key, None, Some(HasBorrow(a, b))))
    case Mul =>
      Some(Question(a, b, Mul, a * b, key, None, None))
    case Div =>
      if b == 0 || a % b != 0 then None
      else Some(Question(a, b, Div, a / b, key, None, None))
  }

  /**
   * `generateQuestionFromSkillKey(skillKey, options)`: the fixed question a
   * key stands for, or `None` when the key matches no pattern or its
   * operands fail the range checks; the range defaults to 0..100.
   */
  function GenerateQuestionFromSkillKey(key: string, rangeMin: Option<int>, rangeMax: Option<int>): (q: Option<Question>)
    ensures ParseSkillKey(key).None? ==> q.None?
    ensures ParseSkillKey(key).Some? ==>
      (q.Some? <==> Accepts(ParseSkillKey(key).value.0, ParseSkillKey(key).value.1,
                            ParseSkillKey(key).value.2, rangeMin.GetOr(0), rangeMax.GetOr(100)))
    ensures q.Some? ==> WellFormed(q.value) && q.value.skillKey == key
    ensures q.Some? ==> ParseSkillKey(key) == Some((q.value.op, q.value.a, q.value.b))
  {
    var parsed := ParseSkillKey(key);
    if parsed.None? then None
    else Reconstruct(parsed.value.0, parsed.value.1, parsed.value.2, key, rangeMin.GetOr(0), rangeMax.GetOr(100))
  }

  /** Keys are matched by pattern, so a key matching none yields no question. */
  lemma UnmatchedKeyRejected(key: string, rangeMin: Option<int>, rangeMax: Option<int>)
    requires forall op :: SplitKey(key, Prefix(op), Separator(op)).None?
    ensures GenerateQuestionFromSkillKey(key, rangeMin, rangeMax).None?
  {
    assert forall op :: MatchOp(key, op).None?;
  }

  lemma AddKeyExample()
    ensures GenerateQuestionFromSkillKey("add_3_5", None, None) ==
      Some(Question(3, 5, Add, 8, "add_3_5", Some(false), None))
  {
    assert SkillKeyFor(Add, 3, 5) == "add_3_5";
    ParseSkillKeyRoundTrip(Add, 3, 5);
  }

  lemma DivKeyExample()
    ensures GenerateQuestionFromSkillKey("div_7_2", None, None).None?
  {
    assert SkillKeyFor(Div, 7, 2) == "div_7_2";
    ParseSkillKeyRoundTrip(Div, 7, 2);
  }

  // ---------------------------------------------------------------------------
  // Generation

  /**
   * What `generateQuestion(o)` promises of its result: a well-formed
   * question of the requested operation, keyed by the override or by its
   * operands, with operands obeying the difficulty rules for the range
   * `o.rangeMin ?? 0` .. `o.rangeMax`.
   */
  predicate Generated(q: Question, o: Options) {
    var lo := o.rangeMin.GetOr(0);
    var hi := o.rangeMax;
    var d := o.difficulty.GetOr(Normal);
    WellFormed(q)
    && (o.operation.Fixed? ==> q.op == o.operation.op)
    && q.skillKey == (if o.skillKey.Some? then o.skillKey.value else SkillKeyFor(q.op, q.a, q.b))
    && match q.op
       case Add =>
         (lo <= hi ==> lo <= q.a <= hi && lo <= q.b <= hi)
         && (q.a + q.b <= 2 * hi || (q.a == lo && q.b == lo))
         && (d == Easy && HasCarry(q.a, q.b) ==> q.a == lo && q.b == lo)
       case Sub =>
         (lo <= hi ==> lo <= q.b <= q.a <= hi)
         && (q.a < q.b ==> q.a == hi && q.b == lo)
         && (q.a == q.b && lo <= hi ==> lo == hi)
         && (d == Easy && HasBorrow(q.a, q.b) ==> q.a == hi && q.b == lo)
       case Mul =>
         q.a in MultipliersFor(d) && 1 <= q.b <= 9
       case Div =>
         q.b in DivisorsFor(d) && 1 <= q.answer <= 9
  }

  /** A subtraction drawn from a well-ordered range never has a negative answer. */
  lemma GeneratedSubNonNegative(q: Question, o: Options)
    requires Generated(q, o) && q.op == Sub
    requires o.rangeMin.GetOr(0) <= o.rangeMax
    ensures q.answer >= 0
  {
  }

  /**
   * A generated question with no key override, drawn from a range of
   * naturals, is exactly the question its own key reconstructs.
   */
  lemma GeneratedKeyReconstructs(q: Question, o: Options)
    requires Generated(q, o) && o.skillKey.None?
    requires 0 <= o.rangeMin.GetOr(0) <= o.rangeMax
    ensures GenerateQuestionFromSkillKey(q.skillKey, Some(o.rangeMin.GetOr(0)), Some(o.rangeMax)) == Some(q)
  {
    var lo, hi := o.rangeMin.GetOr(0), o.rangeMax;
    if q.op == Div {
      ProductNonNegative(q.b, q.answer);
      DivisionExact(q.a, q.b, q.answer);
    }
    assert q.a >= 0 && q.b >= 0;
    ParseSkillKeyRoundTrip(q.op, q.a, q.b);
    assert Accepts(q.op, q.a, q.b, lo, hi);
    var r := Reconstruct(q.op, q.a, q.b, q.skillKey, lo, hi);
    WellFormedDetermined(r.value, q);
  }

  lemma ProductNonNegative(b: int, c: int)
    requires b >= 0 && c >= 0
    ensures b * c >= 0
  {
  }

  lemma MulCancel(b: int, x: int, y: int)
    requires b != 0 && b * x == b * y
    ensures x == y
  {
    assert b * (x - y) == b * x - b * y == 0;
    if x > y {
      if b > 0 { ProductPositive(b, x - y); } else { ProductPositive(-b, x - y); }
    } else if x < y {
      if b > 0 { ProductPositive(b, y - x); } else { ProductPositive(-b, y - x); }
    }
  }

  lemma ProductPositive(b: int, c: int)
    requires b > 0 && c > 0
    ensures b * c > 0
  {
  }

  lemma ProductAtLeast(b: int, k: int)
    requires b > 0 && k >= 1
    ensures b * k >= b
  {
    assert b * k == b + b * (k - 1);
    ProductNonNegative(b, k - 1);
  }

  lemma DivisionExact(a: int, b: int, c: int)
    requires b > 0 && a == b * c
    ensures a % b == 0 && a / b == c
  {
    var q, m := a / b, a % b;
    assert b * c == b * q + m && 0 <= m < b;
    assert b * (c - q) == b * c - b * q;
    if c - q >= 1 {
      ProductAtLeast(b, c - q);
      assert false;
    } else if c - q <= -1 {
      assert b * (c - q) == -(b * (q - c));
      ProductPositive(b, q - c);
      assert false;
    }
  }

  /** The operands and operation of a well-formed question fix its answer and flags. */
  lemma WellFormedDetermined(q: Question, r: Question)
    requires WellFormed(q) && WellFormed(r)
    requires q.a == r.a && q.b == r.b && q.op == r.op && q.skillKey == r.skillKey
    ensures q == r
  {
    if q.op == Div {
      MulCancel(q.b, q.answer, r.answer);
    }
  }

  /** `OPS[Math.floor(r * OPS.length)]` for the draw r. */
  function OpFromDraw(n: U32): Operation {
    OPS[Scale(n, |OPS|)]
  }

  /** The operation of `pickOperation` at position `i` of `s`, and the position after it. */
  function OpAt(option: OperationOption, s: Stream, i: nat): (r: (Operation, nat))
    ensures option.Fixed? ==> r == (option.op, i)
    ensures option.Mixed? ==> r == (OpFromDraw(s(i)), i + 1)
  {
    if option.Mixed? then (OpFromDraw(s(i)), i + 1) else (option.op, i)
  }

  /**
   * The operands and answer the `switch` of `generateQuestion` draws for
   * `op` from position `i` of `s`, and the position after them.
   */
  function OperandsFrom(op: Operation, lo: int, hi: int, d: Difficulty, s: Stream, i: nat): (int, int, int, nat) {
    match op
    case Add => var (a, b, j) := AddendsFrom(lo, hi, d, s, i, 0); (a, b, a + b, j)
    case Sub => var (a, b, j) := MinuendSubtrahendFrom(lo, hi, d, s, i, 0); (a, b, a - b, j)
    case Mul => var (a, b, j) := FactorsAt(d, s, i); (a, b, a * b, j)
    case Div => DivisionAt(d, s, i)
  }

  /** The question object `generateQuestion` returns for the drawn values. */
  function Build(o: Options, op: Operation, a: int, b: int, answer: int): Question {
    var key := if o.skillKey.Some? then o.skillKey.value else SkillKeyFor(op, a, b);
    var carry := if op == Add then Some(HasCarry(a, b)) else None;
    var borrow := if op == Sub then Some(HasBorrow(a, b)) else None;
    Question(a, b, op, answer, key, carry, borrow)
  }

  /** The draw of `pickOperation`: from the shared stream, or from the seeded one. */
  function OpStep(option: OperationOption, c: Cursor): (Operation, Cursor) {
    match c
    case Shared(s, i) => var r := OpAt(option, s, i); (r.0, Shared(s, r.1))
    case Split(os, oi, ms, mi) => var r := OpAt(option, os, oi); (r.0, Split(os, r.1, ms, mi))
  }

  /** The operand draws of `generateQuestion`: from the shared stream, or from `Math.random()`. */
  function OperandsStep(op: Operation, lo: int, hi: int, d: Difficulty, c: Cursor): (int, int, int, Cursor) {
    match c
    case Shared(s, i) => var r := OperandsFrom(op, lo, hi, d, s, i); (r.0, r.1, r.2, Shared(s, r.3))
    case Split(os, oi, ms, mi) => var r := OperandsFrom(op, lo, hi, d, ms, mi); (r.0, r.1, r.2, Split(os, oi, ms, r.3))
  }

  /** One `generateQuestion(o)` from cursor `c`: the question and the cursor after it. */
  function Step(o: Options, c: Cursor): (Question, Cursor) {
    var lo, hi, d := o.rangeMin.GetOr(0), o.rangeMax, o.difficulty.GetOr(Normal);
    var picked := OpStep(o.operation, c);
    var drawn := OperandsStep(picked.0, lo, hi, d, picked.1);
    (Build(o, picked.0, drawn.0, drawn.1, drawn.2), drawn.3)
  }

  /** Whatever the draws, one step yields a question `generateQuestion` promises. */
  lemma StepGenerated(o: Options, c: Cursor)
    ensures Generated(Step(o, c).0, o)
  {
    var lo, hi, d := o.rangeMin.GetOr(0), o.rangeMax, o.difficulty.GetOr(Normal);
    var picked := OpStep(o.operation, c);
    var c1 := picked.1;
    var (s, i) := if c1.Shared? then (c1.s, c1.i) else (c1.ms, c1.mi);
    var drawn := OperandsFrom(picked.0, lo, hi, d, s, i);
    assert OperandsStep(picked.0, lo, hi, d, c1).0 == drawn.0;
    assert OperandsStep(picked.0, lo, hi, d, c1).1 == drawn.1;
    assert OperandsStep(picked.0, lo, hi, d, c1).2 == drawn.2;
    assert Step(o, c).0 == Build(o, picked.0, drawn.0, drawn.1, drawn.2);
    DrawnGenerated(o, picked.0, s, i);
  }

  /** The operands drawn for `op` at position `i` of `s` make a question `generateQuestion` promises. */
  lemma DrawnGenerated(o: Options, op: Operation, s: Stream, i: nat)
    requires o.operation.Fixed? ==> op == o.operation.op
    ensures var drawn := OperandsFrom(op, o.rangeMin.GetOr(0), o.rangeMax, o.difficulty.GetOr(Normal), s, i);
      Generated(Build(o, op, drawn.0, drawn.1, drawn.2), o)
  {
    var lo, hi, d := o.rangeMin.GetOr(0), o.rangeMax, o.difficulty.GetOr(Normal);
    match op {
      case Add => AddendsRules(lo, hi, d, s, i, 0);
      case Sub => MinuendSubtrahendRules(lo, hi, d, s, i, 0);
      case Mul =>
      case Div =>
    }
  }

  /** `pickOperation`: the fixed operation, or one drawn with `getRandom()`. */
  method PickOperation(rng: RandomSource, option: OperationOption) returns (op: Operation)
    requires rng.Valid()
    modifies rng.seeded, rng.math
    ensures rng.Drew(GetRandomCall)
    ensures (op, rng.PosOf(GetRandomCall)) == OpAt(option, old(rng.StreamOf(GetRandomCall)), old(rng.PosOf(GetRandomCall)))
  {
    if option.Mixed? {
      var n := rng.GetRandom();
      op := OpFromDraw(n);
    } else {
      op := option.op;
    }
  }

  /** The `switch` of `generateQuestion`: the operands and answer for `op`, drawn on `ch`. */
  method DrawOperands(rng: RandomSource, ch: Channel, op: Operation, lo: int, hi: int, d: Difficulty)
    returns (a: int, b: int, answer: int)
    requires rng.Valid()
    modifies rng.seeded, rng.math
    ensures rng.Drew(ch)
    ensures (a, b, answer, rng.PosOf(ch)) == OperandsFrom(op, lo, hi, d, old(rng.StreamOf(ch)), old(rng.PosOf(ch)))
  {
    match op {
      case Add => a, b, answer := DrawSum(rng, ch, lo, hi, d);
      case Sub => a, b, answer := DrawDifference(rng, ch, lo, hi, d);
      case Mul => a, b, answer := DrawProduct(rng, ch, d);
      case Div => a, b, answer := RandomDivisionOperands(rng, ch, d);
    }
  }

  /** `case 'add'`: the addends and their sum. */
  method DrawSum(rng: RandomSource, ch: Channel, lo: int, hi: int, d: Difficulty) returns (a: int, b: int, answer: int)
    requires rng.Valid()
    modifies rng.seeded, rng.math
    ensures rng.Drew(ch)
    ensures (a, b, answer, rng.PosOf(ch)) == OperandsFrom(Add, lo, hi, d, old(rng.StreamOf(ch)), old(rng.PosOf(ch)))
  {
    a, b := RandomAddends(rng, ch, lo, hi, d);
    answer := a + b;
  }

  /** `case 'sub'`: minuend, subtrahend and their difference. */
  method DrawDifference(rng: RandomSource, ch: Channel, lo: int, hi: int, d: Difficulty) returns (a: int, b: int, answer: int)
    requires rng.Valid()
    modifies rng.seeded, rng.math
    ensures rng.Drew(ch)
    ensures (a, b, answer, rng.PosOf(ch)) == OperandsFrom(Sub, lo, hi, d, old(rng.StreamOf(ch)), old(rng.PosOf(ch)))
  {
    a, b := RandomMinuendSubtrahend(rng, ch, lo, hi, d);
    answer := a - b;
  }

  /** `case 'mul'`: the factors and their product. */
  method DrawProduct(rng: RandomSource, ch: Channel, d: Difficulty) returns (a: int, b: int, answer: int)
    requires rng.Valid()
    modifies rng.seeded, rng.math
    ensures rng.Drew(ch)
    ensures forall lo, hi :: (a, b, answer, rng.PosOf(ch)) == OperandsFrom(Mul, lo, hi, d, old(rng.StreamOf(ch)), old(rng.PosOf(ch)))
  {
    a, b := RandomFactors(rng, ch, d);
    answer := a * b;
  }

  /**
   * `generateQuestion(options)`: the operation is drawn with `getRandom()`,
   * the operands on the channel `operands` (`Math.random()` in the source).
   */
  method GenerateQuestion(rng: RandomSource, operands: Channel, o: Options) returns (q: Question)
    requires rng.Valid()
    modifies rng.seeded, rng.math
    ensures rng.seeded == old(rng.seeded) && rng.Valid()
    ensures (q, rng.CursorFor(operands)) == Step(o, old(rng.CursorFor(operands)))
    ensures rng.seeded != null && operands == GetRandomCall ==> unchanged(rng.math)
    ensures Generated(q, o)
  {
    ghost var c := rng.CursorFor(operands);
    var lo := o.rangeMin.GetOr(0);
    var hi := o.rangeMax;
    var d := o.difficulty.GetOr(Normal);
    var op := PickOperation(rng, o.operation);
    ghost var c1 := rng.CursorFor(operands);
    assert (op, c1) == OpStep(o.operation, c);
    var a, b, answer := DrawOperands(rng, operands, op, lo, hi, d);
    assert (a, b, answer, rng.CursorFor(operands)) == OperandsStep(op, lo, hi, d, c1);
    var key := if o.skillKey.Some? then o.skillKey.value else SkillKeyFor(op, a, b);
    var carry := if op == Add then Some(HasCarry(a, b)) else None;
    var borrow := if op == Sub then Some(HasBorrow(a, b)) else None;
    q := Question(a, b, op, answer, key, carry, borrow);
    StepGenerated(o, c);
  }

  function OpName(op: Operation): string {
    match op
    case Add => "add"
    case Sub => "sub"
    case Mul => "mul"
    case Div => "div"
  }

  /** The de-duplication key `${a},${b},${op}` of `generateQuestions`. */
  function DedupKey(q: Question): string {
    IntToString(q.a) + "," + IntToString(q.b) + "," + OpName(q.op)
  }

  /** Two questions share a de-duplication key exactly when they share (a, b, op). */
  lemma DedupKeyInjective(q: Question, r: Question)
    ensures DedupKey(q) == DedupKey(r) <==> q.a == r.a && q.b == r.b && q.op == r.op
  {
    if DedupKey(q) == DedupKey(r) {
      IntToStringChars(q.a, ',');
      IntToStringChars(q.b, ',');
      IntToStringChars(r.a, ',');
      IntToStringChars(r.b, ',');
      var tq := IntToString(q.b) + "," + OpName(q.op);
      var tr := IntToString(r.b) + "," + OpName(r.op);
      assert DedupKey(q) == IntToString(q.a) + [','] + tq;
      assert DedupKey(r) == IntToString(r.a) + [','] + tr;
      SplitAtFirst(IntToString(q.a), tq, IntToString(r.a), tr, ',');
      assert tq == IntToString(q.b) + [','] + OpName(q.op);
      assert tr == IntToString(r.b) + [','] + OpName(r.op);
      SplitAtFirst(IntToString(q.b), OpName(q.op), IntToString(r.b), OpName(r.op), ',');
      IntToStringInjective(q.a, r.a);
      IntToStringInjective(q.b, r.b);
    }
  }

  /** No two questions of `qs` share (a, b, op). */
  predicate DistinctTriples(qs: seq<Question>) {
    forall i, j :: 0 <= i < j < |qs| ==>
      !(qs[i].a == qs[j].a && qs[i].b == qs[j].b && qs[i].op == qs[j].op)
  }

  /** `generateQuestion(o)` as a function of the cursor. */
  function StepOf(o: Options): Cursor -> (Question, Cursor) {
    c => Step(o, c)
  }

  /** Every question `StepOf(o)` yields is one `generateQuestion(o)` promises. */
  lemma StepOfGenerated(o: Options)
    ensures forall c :: Generated(StepOf(o)(c).0, o)
  {
    forall c {
      StepGenerated(o, c);
    }
  }

  /**
   * `step` draws one question as `generateQuestion(o)` does; the fact is
   * used only where a `Step(o, c)` is already in view.
   */
  ghost predicate DrawsAs(step: Cursor -> (Question, Cursor), o: Options) {
    forall c {:trigger Step(o, c)} :: step(c) == Step(o, c)
  }

  /**
   * The questions `generateQuestions` appends to `qs` when each question is
   * drawn by `step` from cursor `c`, with `seen` the keys produced so far,
   * and at most `fuel` more questions are drawn: a question whose key was
   * seen is dropped and redrawn while `count <= 100`.
   */
  ghost function Batch(count: int, step: Cursor -> (Question, Cursor), c: Cursor, fuel: nat,
                       qs: seq<Question>, seen: set<string>): seq<Question>
    decreases fuel
  {
    if |qs| >= count || fuel == 0 then qs
    else
      var next := step(c);
      var key := DedupKey(next.0);
      if key in seen && count <= 100 then Batch(count, step, next.1, fuel - 1, qs, seen)
      else Batch(count, step, next.1, fuel - 1, qs + [next.0], seen + {key})
  }

  /** Two step functions that agree everywhere give the same batch. */
  lemma {:induction false} BatchSameSteps(count: int, s1: Cursor -> (Question, Cursor), s2: Cursor -> (Question, Cursor),
                                           c: Cursor, fuel: nat, qs: seq<Question>, seen: set<string>)
    requires forall c' :: s1(c') == s2(c')
    ensures Batch(count, s1, c, fuel, qs, seen) == Batch(count, s2, c, fuel, qs, seen)
    decreases fuel
  {
    if |qs| >= count || fuel == 0 {
    } else {
      var next := s1(c);
      var key := DedupKey(next.0);
      if key in seen && count <= 100 {
        BatchSameSteps(count, s1, s2, next.1, fuel - 1, qs, seen);
      } else {
        BatchSameSteps(count, s1, s2, next.1, fuel - 1, qs + [next.0], seen + {key});
      }
    }
  }

  /** A batch extends the questions already drawn and never exceeds `count`. */
  lemma {:induction false} BatchExtends(count: int, step: Cursor -> (Question, Cursor), c: Cursor, fuel: nat,
                                         qs: seq<Question>, seen: set<string>)
    requires |qs| <= Max(count, 0)
    ensures var r := Batch(count, step, c, fuel, qs, seen);
      qs <= r && |r| <= Max(count, 0)
    decreases fuel
  {
    if |qs| >= count || fuel == 0 {
    } else {
      var next := step(c);
      var key := DedupKey(next.0);
      if key in seen && count <= 100 {
        BatchExtends(count, step, next.1, fuel - 1, qs, seen);
      } else {
        BatchExtends(count, step, next.1, fuel - 1, qs + [next.0], seen + {key});
      }
    }
  }

  /** A property every draw of `step` has holds of every question of the batch. */
  lemma {:induction false} BatchKeeps(count: int, step: Cursor -> (Question, Cursor), c: Cursor, fuel: nat,
                                       qs: seq<Question>, seen: set<string>, ok: Question -> bool)
    requires forall c' :: ok(step(c').0)
    requires forall k :: 0 <= k < |qs| ==> ok(qs[k])
    ensures forall k :: 0 <= k < |Batch(count, step, c, fuel, qs, seen)| ==> ok(Batch(count, step, c, fuel, qs, seen)[k])
    decreases fuel
  {
    if |qs| >= count || fuel == 0 {
    } else {
      var next := step(c);
      var key := DedupKey(next.0);
      if key in seen && count <= 100 {
        BatchKeeps(count, step, next.1, fuel - 1, qs, seen, ok);
      } else {
        BatchKeeps(count, step, next.1, fuel - 1, qs + [next.0], seen + {key}, ok);
      }
    }
  }

  /**
   * A property of the questions and keys so far that survives appending a
   * question whose key was not seen holds of the whole batch while
   * `count <= 100`, with `seen'` the keys produced by then.
   */
  lemma {:induction false} BatchPreserves(count: int, step: Cursor -> (Question, Cursor), c: Cursor, fuel: nat,
                                          qs: seq<Question>, seen: set<string>,
                                          inv: (seq<Question>, set<string>) -> bool)
    returns (seen': set<string>)
    requires count <= 100
    requires inv(qs, seen)
    requires forall qs0, seen0, q :: inv(qs0, seen0) && DedupKey(q) !in seen0 ==> inv(qs0 + [q], seen0 + {DedupKey(q)})
    ensures inv(Batch(count, step, c, fuel, qs, seen), seen')
    decreases fuel
  {
    if |qs| >= count || fuel == 0 {
      seen' := seen;
    } else {
      var next := step(c);
      var key := DedupKey(next.0);
      if key in seen {
        seen' := BatchPreserves(count, step, next.1, fuel - 1, qs, seen, inv);
      } else {
        seen' := BatchPreserves(count, step, next.1, fuel - 1, qs + [next.0], seen + {key}, inv);
      }
    }
  }

  /** Every question's key is among `seen`, and no (a, b, op) occurs twice. */
  ghost predicate Keyed(qs: seq<Question>, seen: set<string>) {
    (forall k :: 0 <= k < |qs| ==> DedupKey(qs[k]) in seen) && DistinctTriples(qs)
  }

  /**
   * While `count <= 100` a batch holds no (a, b, op) twice, whatever the
   * draws: a question whose key was seen is dropped.
   */
  lemma BatchDistinct(count: int, step: Cursor -> (Question, Cursor), c: Cursor, fuel: nat,
                      qs: seq<Question>, seen: set<string>)
    requires count <= 100
    requires forall k :: 0 <= k < |qs| ==> DedupKey(qs[k]) in seen
    requires DistinctTriples(qs)
    ensures DistinctTriples(Batch(count, step, c, fuel, qs, seen))
  {
    forall qs0, seen0, q | Keyed(qs0, seen0) && DedupKey(q) !in seen0
      ensures Keyed(qs0 + [q], seen0 + {DedupKey(q)})
    {
      AppendUnseen(qs0, q, seen0);
    }
    var seen' := BatchPreserves(count, step, c, fuel, qs, seen, Keyed);
  }

  /** A question whose key was not seen keeps the questions distinct. */
  lemma AppendUnseen(qs: seq<Question>, q: Question, seen: set<string>)
    requires forall k :: 0 <= k < |qs| ==> DedupKey(qs[k]) in seen
    requires DistinctTriples(qs) && DedupKey(q) !in seen
    ensures DistinctTriples(qs + [q])
    ensures forall k :: 0 <= k < |qs + [q]| ==> DedupKey((qs + [q])[k]) in seen + {DedupKey(q)}
  {
    var qs' := qs + [q];
    forall i, j | 0 <= i < j < |qs'|
      ensures !(qs'[i].a == qs'[j].a && qs'[i].b == qs'[j].b && qs'[i].op == qs'[j].op)
    {
      if j == |qs| {
        DedupKeyInjective(qs'[i], q);
      }
    }
  }

  /**
   * A step function that draws as `generateQuestion(o)` does, with what
   * its batches promise from cursor `c`.
   */
  lemma StepFunction(o: Options, c: Cursor, fuel: nat) returns (step: Cursor -> (Question, Cursor))
    ensures DrawsAs(step, o)
    ensures |Batch(o.count.GetOr(10), step, c, fuel, [], {})| <= Max(o.count.GetOr(10), 0)
    ensures forall k :: 0 <= k < |Batch(o.count.GetOr(10), step, c, fuel, [], {})| ==>
      Generated(Batch(o.count.GetOr(10), step, c, fuel, [], {})[k], o)
    ensures o.count.GetOr(10) <= 100 ==> DistinctTriples(Batch(o.count.GetOr(10), step, c, fuel, [], {}))
  {
    var count := o.count.GetOr(10);
    step := StepOf(o);
    BatchExtends(count, step, c, fuel, [], {});
    StepOfGenerated(o);
    BatchKeeps(count, step, c, fuel, [], {}, q => Generated(q, o));
    if count <= 100 {
      BatchDistinct(count, step, c, fuel, [], {});
    }
  }

  /** The batch of a step function that draws as `generateQuestion(o)` does is that of `StepOf(o)`. */
  lemma BatchOfStepOf(o: Options, step: Cursor -> (Question, Cursor), c: Cursor, fuel: nat)
    requires DrawsAs(step, o)
    ensures Batch(o.count.GetOr(10), step, c, fuel, [], {}) == Batch(o.count.GetOr(10), StepOf(o), c, fuel, [], {})
  {
    forall c' | true
      ensures step(c') == StepOf(o)(c')
    {
      assert StepOf(o)(c') == Step(o, c');
    }
    BatchSameSteps(o.count.GetOr(10), step, StepOf(o), c, fuel, [], {});
  }

  /** `generateQuestion(o)`, its draws stated through a step function that draws as it does. */
  method GenerateQuestionBy(rng: RandomSource, operands: Channel, o: Options, ghost step: Cursor -> (Question, Cursor))
    returns (q: Question)
    requires rng.Valid() && DrawsAs(step, o)
    modifies rng.seeded, rng.math
    ensures rng.seeded == old(rng.seeded) && rng.Valid()
    ensures (q, rng.CursorFor(operands)) == step(old(rng.CursorFor(operands)))
    ensures rng.seeded != null && operands == GetRandomCall ==> unchanged(rng.math)
  {
    q := GenerateQuestion(rng, operands, o);
  }

  /**
   * `generateQuestions(options)`: `count` (default 10) questions, redrawing a
   * question whose (a, b, op) was already produced as long as `count <= 100`.
   * The source may redraw forever; here at most `fuel` questions are drawn
   * and `complete` says whether the batch was filled.
   */
  method GenerateQuestions(rng: RandomSource, operands: Channel, o: Options, fuel: nat)
    returns (qs: seq<Question>, complete: bool)
    requires rng.Valid()
    modifies rng.seeded, rng.math
    ensures rng.seeded == old(rng.seeded) && rng.Valid()
    ensures qs == Batch(o.count.GetOr(10), StepOf(o), old(rng.CursorFor(operands)), fuel, [], {})
    ensures rng.seeded != null && operands == GetRandomCall ==> unchanged(rng.math)
    ensures complete <==> |qs| == Max(o.count.GetOr(10), 0)
    ensures forall k :: 0 <= k < |qs| ==> Generated(qs[k], o)
    ensures o.count.GetOr(10) <= 100 ==> DistinctTriples(qs)
  {
    var count := o.count.GetOr(10);
    ghost var c0 := rng.CursorFor(operands);
    ghost var step := StepFunction(o, c0, fuel);
    ghost var result := Batch(count, step, c0, fuel, [], {});
    qs := [];
    var seen: set<string> := {};
    var calls := 0;
    while |qs| < count && calls < fuel
      invariant calls <= fuel
      invariant rng.seeded == old(rng.seeded) && rng.Valid()
      invariant rng.seeded != null && operands == GetRandomCall ==> unchanged(rng.math)
      invariant result == Batch(count, step, rng.CursorFor(operands), fuel - calls, qs, seen)
      decreases fuel - calls
    {
      var q := GenerateQuestionBy(rng, operands, o, step);
      calls := calls + 1;
      var key := DedupKey(q);
      if key in seen && count <= 100 {
        continue;
      }
      seen := seen + {key};
      qs := qs + [q];
    }
    complete := |qs| >= count;
    BatchOfStepOf(o, step, c0, fuel);
  }

  /** The options of the daily set: mixed operations on 0..50 at normal difficulty. */
  function TodayOptions(count: int): Options {
    Options(Mixed, Some(0), 50, Some(Normal), Some(count), None)
  }

  /**
   * The daily set as the source draws it: operations from the stream seeded
   * with `hashString(dateKey)`, operands from `Math.random()` at `mi`.
   */
  ghost function TodayBatch(dateKey: string, count: int, fuel: nat, math: Stream, mi: nat): seq<Question> {
    Batch(count, StepOf(TodayOptions(count)), Split(SeededStream(HashFold(dateKey)), 0, math, mi), fuel, [], {})
  }

  /** The daily set with every draw taken from the seeded stream: a function of the date alone. */
  ghost function TodaySeededBatch(dateKey: string, count: int, fuel: nat): seq<Question> {
    Batch(count, StepOf(TodayOptions(count)), Shared(SeededStream(HashFold(dateKey)), 0), fuel, [], {})
  }

  /**
   * `generateTodayQuestions(dateKey, count)` as written: installs the stream
   * seeded with `hashString(dateKey)`, draws the batch and restores
   * `Math.random`. Only the operations come from the seeded stream.
   */
  method GenerateTodayQuestions(rng: RandomSource, dateKey: string, count: int, fuel: nat)
    returns (qs: seq<Question>, complete: bool)
    modifies rng, rng.math
    ensures rng.seeded == null
    ensures qs == TodayBatch(dateKey, count, fuel, rng.math.draws, old(rng.math.pos))
    ensures complete <==> |qs| == Max(count, 0)
    ensures forall k :: 0 <= k < |qs| ==> Generated(qs[k], TodayOptions(count))
    ensures count <= 100 ==> DistinctTriples(qs)
  {
    var seed := HashString(dateKey);
    var seeded := new SeededRandom(seed);
    rng.SetRandom(seeded);
    qs, complete := GenerateQuestions(rng, MathRandomCall, TodayOptions(count), fuel);
    rng.ResetRandom();
  }

  /**
   * The daily set with the operands drawn through `getRandom()` as well:
   * the same date gives the same set, and `Math.random()` is not consulted.
   */
  method GenerateTodayQuestionsSeeded(rng: RandomSource, dateKey: string, count: int, fuel: nat)
    returns (qs: seq<Question>, complete: bool)
    modifies rng, rng.math
    ensures rng.seeded == null && rng.math.pos == old(rng.math.pos)
    ensures qs == TodaySeededBatch(dateKey, count, fuel)
    ensures complete <==> |qs| == Max(count, 0)
    ensures forall k :: 0 <= k < |qs| ==> Generated(qs[k], TodayOptions(count))
    ensures count <= 100 ==> DistinctTriples(qs)
  {
    var seed := HashString(dateKey);
    var seeded := new SeededRandom(seed);
    rng.SetRandom(seeded);
    qs, complete := GenerateQuestions(rng, GetRandomCall, TodayOptions(count), fuel);
    rng.ResetRandom();
  }

  /**
   * A step that, on a split cursor, takes its operation from the seeded
   * stream, one draw per question, through `opOf`, as `pickOperation` does
   * for mixed operations with `OpFromDraw`.
   */
  ghost predicate DrawsOpsFromSeed(step: Cursor -> (Question, Cursor), opOf: U32 -> Operation) {
    forall c: Cursor {:trigger step(c)} :: c.Split? ==>
      && step(c).1.Split? && step(c).1.os == c.os && step(c).1.oi == c.oi + 1
      && step(c).0.op == opOf(c.os(c.oi))
  }

  /** `generateQuestion` under mixed operations draws its operation from the seeded stream. */
  lemma StepOfDrawsOpsFromSeed(o: Options)
    requires o.operation.Mixed?
    ensures DrawsOpsFromSeed(StepOf(o), OpFromDraw)
  {
    forall c: Cursor | c.Split?
      ensures StepOf(o)(c).1.Split? && StepOf(o)(c).1.os == c.os && StepOf(o)(c).1.oi == c.oi + 1
      ensures StepOf(o)(c).0.op == OpFromDraw(c.os(c.oi))
    {
      assert StepOf(o)(c) == Step(o, c);
    }
  }

  /**
   * The questions of `r` from `start` on have the operations drawn through
   * `opOf` at the increasing positions `idx` of `os`, each in `lo..hi-1`.
   */
  ghost predicate OpsDrawnAt(r: seq<Question>, start: nat, idx: seq<nat>, opOf: U32 -> Operation,
                             os: Stream, lo: nat, hi: int) {
    && |idx| == |r| - start
    && (forall k :: 0 <= k < |idx| ==> lo <= idx[k] < hi)
    && (forall k, l :: 0 <= k < l < |idx| ==> idx[k] < idx[l])
    && (forall k :: 0 <= k < |idx| ==> r[start + k].op == opOf(os(idx[k])))
  }

  /** The positions `lo`, `lo + 1`, ... in turn. */
  ghost predicate Consecutive(idx: seq<nat>, lo: nat) {
    forall k :: 0 <= k < |idx| ==> idx[k] == lo + k
  }

  /** A question drawn at `lo` in front of questions drawn after it. */
  lemma PrependOp(r: seq<Question>, start: nat, idx: seq<nat>, opOf: U32 -> Operation, os: Stream, lo: nat, hi: int)
    requires OpsDrawnAt(r, start + 1, idx, opOf, os, lo + 1, hi)
    requires start < |r| && r[start].op == opOf(os(lo)) && lo < hi
    ensures OpsDrawnAt(r, start, [lo] + idx, opOf, os, lo, hi)
    ensures Consecutive(idx, lo + 1) ==> Consecutive([lo] + idx, lo)
  {
    var idx' := [lo] + idx;
    forall k | 0 < k < |idx'|
      ensures idx'[k] == idx[k - 1] && r[start + k] == r[start + 1 + (k - 1)]
    {
    }
  }

  /**
   * In a batch drawn from a split cursor, the operations of the new
   * questions are those of the seeded stream at increasing positions, among
   * the next `fuel`; with no dropping (`count > 100`) at exactly the next
   * positions in turn.
   */
  lemma {:induction false} BatchOpsFromSeed(count: int, step: Cursor -> (Question, Cursor), opOf: U32 -> Operation,
                                            os: Stream, oi: nat, ms: Stream, mi: nat, fuel: nat,
                                            qs: seq<Question>, seen: set<string>)
    returns (idx: seq<nat>)
    requires DrawsOpsFromSeed(step, opOf)
    requires |qs| <= Max(count, 0)
    ensures OpsDrawnAt(Batch(count, step, Split(os, oi, ms, mi), fuel, qs, seen), |qs|, idx, opOf, os, oi, oi + fuel)
    ensures count > 100 ==> Consecutive(idx, oi)
    decreases fuel
  {
    var c := Split(os, oi, ms, mi);
    var r := Batch(count, step, c, fuel, qs, seen);
    BatchExtends(count, step, c, fuel, qs, seen);
    if |qs| >= count || fuel == 0 {
      idx := [];
    } else {
      var next := step(c);
      var key := DedupKey(next.0);
      var c' := next.1;
      assert c' == Split(os, oi + 1, c'.ms, c'.mi);
      if key in seen && count <= 100 {
        assert r == Batch(count, step, c', fuel - 1, qs, seen);
        idx := BatchOpsFromSeed(count, step, opOf, os, oi + 1, c'.ms, c'.mi, fuel - 1, qs, seen);
      } else {
        var qs' := qs + [next.0];
        assert r == Batch(count, step, c', fuel - 1, qs', seen + {key});
        var rest := BatchOpsFromSeed(count, step, opOf, os, oi + 1, c'.ms, c'.mi, fuel - 1, qs', seen + {key});
        BatchExtends(count, step, c', fuel - 1, qs', seen + {key});
        assert r[|qs|] == qs'[|qs|] == next.0;
        PrependOp(r, |qs|, rest, opOf, os, oi, oi + fuel);
        idx := [oi] + rest;
      }
    }
  }

  /**
   * The operations of the daily set as written are the operations of the
   * stream seeded with `hashString(dateKey)`, at increasing positions, and
   * at positions 0, 1, 2, ... when nothing is dropped (`count > 100`).
   */
  lemma TodayOpsFromDate(dateKey: string, count: int, fuel: nat, math: Stream, mi: nat)
    returns (idx: seq<nat>)
    ensures |idx| == |TodayBatch(dateKey, count, fuel, math, mi)|
    ensures forall k, l :: 0 <= k < l < |idx| ==> idx[k] < idx[l]
    ensures forall k :: 0 <= k < |idx| ==>
      TodayBatch(dateKey, count, fuel, math, mi)[k].op == OpFromDraw(SeededStream(HashFold(dateKey))(idx[k]))
    ensures count > 100 ==> forall k :: 0 <= k < |idx| ==> idx[k] == k
  {
    StepOfDrawsOpsFromSeed(TodayOptions(count));
    idx := BatchOpsFromSeed(count, StepOf(TodayOptions(count)), OpFromDraw, SeededStream(HashFold(dateKey)), 0, math, mi, fuel, [], {});
  }

  /** The first question of a batch that has room and fuel is the first one drawn. */
  lemma FirstOfBatch(count: int, step: Cursor -> (Question, Cursor), c: Cursor, fuel: nat)
    requires count >= 1 && fuel >= 1
    ensures |Batch(count, step, c, fuel, [], {})| >= 1
    ensures Batch(count, step, c, fuel, [], {})[0] == step(c).0
  {
    var next := step(c);
    var first: seq<Question>, seen: set<string> := [next.0], {DedupKey(next.0)};
    var r := Batch(count, step, next.1, fuel - 1, first, seen);
    assert DedupKey(next.0) !in {};
    assert Batch(count, step, c, fuel, [], {}) == r by {
      assert [] + [next.0] == first && {} + {DedupKey(next.0)} == seen;
    }
    BatchExtends(count, step, next.1, fuel - 1, first, seen);
    assert r[..1] == first;
  }

  /** A `Math.random()` that always returns 0. */
  function ZeroDraws(): Stream {
    _ => 0
  }

  /** A `Math.random()` alternating between just below 1 and 84215046 / 2^32. */
  function HighLowDraws(): Stream {
    i => if i % 2 == 0 then TWO32 - 1 else 84215046
  }

  /** Under `ZeroDraws` every attempt of `randomMinuendSubtrahend` on 0..50 is an equal pair and is rejected. */
  lemma {:induction false} ZeroDrawsSubFallback(i: nat, attempt: nat)
    requires attempt <= MAX_ATTEMPTS
    ensures MinuendSubtrahendFrom(0, 50, Normal, ZeroDraws(), i, attempt).0 == 50
    ensures MinuendSubtrahendFrom(0, 50, Normal, ZeroDraws(), i, attempt).1 == 0
    decreases MAX_ATTEMPTS - attempt
  {
    if attempt < MAX_ATTEMPTS {
      assert RandomIntAt(0, 50, ZeroDraws(), i) == 0;
      assert RandomIntAt(0, 50, ZeroDraws(), i + 1) == 0;
      ZeroDrawsSubFallback(i + 2, attempt + 1);
    }
  }

  /** On the daily range, the two `Math.random()` streams give different first operands for every operation. */
  lemma FirstOperandsDiffer(op: Operation)
    ensures var z := OperandsFrom(op, 0, 50, Normal, ZeroDraws(), 0);
            var h := OperandsFrom(op, 0, 50, Normal, HighLowDraws(), 0);
            z.0 != h.0 || z.1 != h.1
  {
    var z, h := ZeroDraws(), HighLowDraws();
    assert z(0) == 0 && z(1) == 0;
    assert h(0) == TWO32 - 1 && h(1) == 84215046;
    match op {
      case Add =>
        assert RandomIntAt(0, 50, z, 0) == 0;
        assert RandomIntAt(0, 50, h, 0) == 50 && RandomIntAt(0, 50, h, 1) == 1;
        assert OperandsFrom(op, 0, 50, Normal, z, 0).0 == 0;
        assert OperandsFrom(op, 0, 50, Normal, h, 0).0 == 50;
      case Sub =>
        ZeroDrawsSubFallback(0, 0);
        assert RandomIntAt(0, 50, h, 0) == 50 && RandomIntAt(0, 50, h, 1) == 1;
        assert OperandsFrom(op, 0, 50, Normal, h, 0).1 == 1;
      case Mul =>
        assert PickAt(MultipliersFor(Normal), z, 0) == 2;
        assert PickAt(MultipliersFor(Normal), h, 0) == 6;
      case Div =>
        assert PickAt(DivisorsFor(Normal), z, 0) == 2;
        assert PickAt(DivisorsFor(Normal), h, 0) == 6;
    }
  }

  /**
   * As written, the first question of the daily set depends on
   * `Math.random()`: the same date gives different first questions under
   * `ZeroDraws` and `HighLowDraws`.
   */
  lemma TodayFirstQuestionDiffers(dateKey: string, count: int)
    ensures Step(TodayOptions(count), Split(SeededStream(HashFold(dateKey)), 0, ZeroDraws(), 0)).0
         != Step(TodayOptions(count), Split(SeededStream(HashFold(dateKey)), 0, HighLowDraws(), 0)).0
  {
    var os := SeededStream(HashFold(dateKey));
    var op := OpFromDraw(os(0));
    assert OpStep(Mixed, Split(os, 0, ZeroDraws(), 0)) == (op, Split(os, 1, ZeroDraws(), 0));
    assert OpStep(Mixed, Split(os, 0, HighLowDraws(), 0)) == (op, Split(os, 1, HighLowDraws(), 0));
    FirstOperandsDiffer(op);
  }

  /**
   * As written, `generateTodayQuestions` does not give the same set for the
   * same date: two `Math.random()` streams give two different sets.
   */
  lemma TodayOperandsVary(dateKey: string, count: int, fuel: nat)
    requires count >= 1 && fuel >= 1
    ensures TodayBatch(dateKey, count, fuel, ZeroDraws(), 0) != TodayBatch(dateKey, count, fuel, HighLowDraws(), 0)
  {
    var o := TodayOptions(count);
    var os := SeededStream(HashFold(dateKey));
    var cz, ch := Split(os, 0, ZeroDraws(), 0), Split(os, 0, HighLowDraws(), 0);
    FirstOfBatch(count, StepOf(o), cz, fuel);
    FirstOfBatch(count, StepOf(o), ch, fuel);
    assert StepOf(o)(cz) == Step(o, cz) && StepOf(o)(ch) == Step(o, ch);
    TodayFirstQuestionDiffers(dateKey, count);
  }
}
