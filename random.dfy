/**
 * The swappable random source, the djb2 string hash and the Mulberry32
 * seeded stream of src/generator/random.ts.
 *
 * A random value in [0, 1) is modelled by its 32-bit numerator `n`, the
 * value being n / 2^32: the seeded stream produces exactly such values, and
 * `Math.floor(r * k)` is then the integer `n * k / 2^32`. `Math.random()` is
 * a nondeterministic choice of numerator, so every property holds for every
 * sequence of draws.
 */
module Random {

  const TWO31: int := 0x8000_0000
  const TWO32: int := 0x1_0000_0000

  /** An unsigned 32-bit integer; as a draw, the numerator of a value in [0, 1). */
  type U32 = n: int | 0 <= n < TWO32

  /** A stream of draws: the numerator of the i-th value handed out. */
  type Stream = nat -> U32

  /**
   * `Math.random`: a sequence of draws fixed in advance but unknown, so every
   * property holds for every stream.
   */
  class MathRandom {
    const draws: Stream
    var pos: nat

    constructor (draws: Stream)
      ensures this.draws == draws && pos == 0
    {
      this.draws := draws;
      pos := 0;
    }

    /** One call of `Math.random()`: the next draw of the stream. */
    method Next() returns (n: U32)
      modifies this
      ensures n == draws(old(pos)) && pos == old(pos) + 1
    {
      n := draws(pos);
      pos := pos + 1;
    }
  }

  /** `Math.floor(r * k)` for the draw r = n / 2^32. */
  function Scale(n: U32, k: int): (r: int)
    ensures k > 0 ==> 0 <= r < k
    ensures k <= 0 ==> k <= r <= 0
  {
    assert k > 0 ==> n * k < TWO32 * k;
    assert k <= 0 ==> n * k >= TWO32 * k;
    n * k / TWO32
  }

  /** `x >>> 0`: the unsigned 32-bit integer congruent to `x`. */
  function ToUint32(x: int): U32 {
    x % TWO32
  }

  /** `x | 0`: the signed 32-bit integer congruent to `x`. */
  function ToInt32(x: int): (r: int)
    ensures -TWO31 <= r < TWO31
    ensures ToUint32(r) == ToUint32(x)
  {
    var u := x % TWO32;
    ModShift(u, if u >= TWO31 then 1 else 0);
    if u >= TWO31 then u - TWO32 else u
  }

  /** Adding a multiple of 2^32 does not change a value modulo 2^32. */
  lemma ModShift(a: int, k: int)
    ensures (a - TWO32 * k) % TWO32 == a % TWO32
  {
    var q, r := a / TWO32, a % TWO32;
    assert a - TWO32 * k == TWO32 * (q - k) + r;
  }

  // ---------------------------------------------------------------------------
  // hashString: djb2 over the UTF-16 code units, wrapped to 32 bits.

  const HASH_INIT: U32 := 5381

  /** `s.charCodeAt(i)` for a character of the Basic Multilingual Plane. */
  function CharCode(c: char): nat {
    c as int
  }

  /** One djb2 step on the unsigned view of the hash. */
  function HashStep(h: U32, c: char): U32 {
    (33 * h + CharCode(c)) % TWO32
  }

  /** The hash as a left fold of HashStep over `s`, starting at 5381. */
  function HashFold(s: string): U32 {
    if s == [] then HASH_INIT else HashStep(HashFold(s[..|s| - 1]), s[|s| - 1])
  }

  /**
   * The loop of the source: `h = ((h << 5) + h + s.charCodeAt(i)) | 0` on a
   * signed 32-bit `h`, then `h >>> 0`.
   */
  method HashString(s: string) returns (seed: U32)
    ensures seed == HashFold(s)
  {
    var h: int := HASH_INIT;
    for i := 0 to |s|
      invariant -TWO31 <= h < TWO31
      invariant ToUint32(h) == HashFold(s[..i])
    {
      assert s[..i + 1][..i] == s[..i];
      HashStepSigned(h, s[i]);
      var shifted := ToInt32(h * 32);
      h := ToInt32(shifted + h + CharCode(s[i]));
    }
    assert s[..|s|] == s;
    seed := ToUint32(h);
  }

  /** Values congruent modulo 2^32 stay congruent when the same value is added. */
  lemma CongruentAdd(x: int, y: int, z: int)
    requires x % TWO32 == y % TWO32
    ensures (x + z) % TWO32 == (y + z) % TWO32
  {
    var k := x / TWO32 - y / TWO32;
    assert x == y + TWO32 * k;
    ModShift(x + z, k);
  }

  /** Values congruent modulo 2^32 stay congruent when multiplied by the same value. */
  lemma CongruentScale(x: int, y: int, m: int)
    requires x % TWO32 == y % TWO32
    ensures (m * x) % TWO32 == (m * y) % TWO32
  {
    var k := x / TWO32 - y / TWO32;
    assert x == y + TWO32 * k;
    assert m * x == m * y + TWO32 * (m * k);
    ModShift(m * x, m * k);
  }

  /** The signed step of the source agrees with HashStep on the unsigned view. */
  lemma HashStepSigned(h: int, c: char)
    ensures ToUint32(ToInt32(h * 32) + h + CharCode(c)) == HashStep(ToUint32(h), c)
  {
    var a, u, code := ToInt32(h * 32), ToUint32(h), CharCode(c);
    CongruentAdd(a, h * 32, h + code);
    assert h * 32 + (h + code) == 33 * h + code;
    assert u % TWO32 == h % TWO32;
    CongruentScale(h, u, 33);
    CongruentAdd(33 * h, 33 * u, code);
  }

  lemma HashOfEmpty()
    ensures HashFold("") == 5381
  {
  }

  /** Hashing a string extended by one character takes one more djb2 step. */
  lemma HashSnoc(s: string, c: char)
    ensures HashFold(s + [c]) == (33 * HashFold(s) + CharCode(c)) % TWO32
  {
    assert (s + [c])[..|s|] == s;
  }

  // ---------------------------------------------------------------------------
  // createSeededRandom: Mulberry32.

  const MULBERRY_INCREMENT: int := 0x6d2b79f5

  /** `seed = (seed + 0x6d2b79f5) | 0`, on the unsigned view of the state. */
  function Advance(state: U32): U32 {
    (state + MULBERRY_INCREMENT) % TWO32
  }

  /**
   * Bitwise exclusive or of `a` and `b` below `bound`: with `bound` = 2^32, the
   * low 32 bits.
   */
  function Xor(a: nat, b: nat, bound: nat): (r: nat)
    requires bound >= 1
    ensures r < bound
    decreases bound
  {
    if bound == 1 then 0
    else (if a % 2 == b % 2 then 0 else 1) + 2 * Xor(a / 2, b / 2, bound / 2)
  }

  /** `x ^ (x >>> 15)` on a 32-bit value. */
  function XorShift15(x: U32): U32 {
    Xor(x, x / 0x8000, TWO32)
  }

  /**
   * The output numerator for a state already advanced:
   * `t = Math.imul(seed ^ (seed >>> 15), 1 | seed)`, then `(t ^ (t >>> 15)) >>> 0`.
   * `Math.imul` keeps the low 32 bits of the product, and `1 | seed` sets the
   * lowest bit.
   */
  function Mix(state: U32): U32 {
    var low := if state % 2 == 1 then state else state + 1;
    var t := (XorShift15(state) * low) % TWO32;
    XorShift15(t)
  }

  /** The state after `k` calls of a generator created with `seed`. */
  function StateAfter(seed: U32, k: nat): U32 {
    if k == 0 then seed else Advance(StateAfter(seed, k - 1))
  }

  /** Draw `i` (from 0) of a generator created with `seed`: call `i + 1` mixes the state it leaves. */
  function SeededDraw(seed: U32, i: nat): U32 {
    Mix(StateAfter(seed, i + 1))
  }

  /** All the draws of a generator created with `seed`. */
  function SeededStream(seed: U32): Stream {
    i => SeededDraw(seed, i)
  }

  /** The first `k` draws of a generator created with `seed`. */
  function Draws(seed: U32, k: nat): (ds: seq<U32>)
    ensures |ds| == k
  {
    if k == 0 then [] else Draws(seed, k - 1) + [Mix(StateAfter(seed, k))]
  }

  /** After `k` calls the state has moved on by `k` increments, modulo 2^32. */
  lemma {:induction false} StateAfterClosedForm(seed: U32, k: nat)
    ensures StateAfter(seed, k) == (seed + k * MULBERRY_INCREMENT) % TWO32
  {
    if k > 0 {
      StateAfterClosedForm(seed, k - 1);
      var prev := seed + (k - 1) * MULBERRY_INCREMENT;
      var q := prev / TWO32;
      assert prev % TWO32 == prev - TWO32 * q;
      assert prev + MULBERRY_INCREMENT == seed + k * MULBERRY_INCREMENT;
      ModShift(seed + k * MULBERRY_INCREMENT, q);
    }
  }

  /** The `k` first draws list the stream: entry `i` is draw `i`. */
  lemma {:induction false} DrawAt(seed: U32, k: nat, i: nat)
    requires i < k
    ensures Draws(seed, k)[i] == SeededDraw(seed, i) == SeededStream(seed)(i)
  {
    var prefix := Draws(seed, k - 1);
    var last := Mix(StateAfter(seed, k));
    assert Draws(seed, k) == prefix + [last];
    if i < k - 1 {
      DrawAt(seed, k - 1, i);
      assert (prefix + [last])[i] == prefix[i];
    } else {
      assert (prefix + [last])[i] == last;
    }
  }

  /** One more call from the state `c` calls leave gives draw `c` and extends the draws by it. */
  lemma NextDraw(seed: U32, c: nat, st: U32)
    requires st == StateAfter(seed, c)
    ensures Advance(st) == StateAfter(seed, c + 1)
    ensures SeededDraw(seed, c) == Mix(Advance(st))
    ensures Draws(seed, c + 1) == Draws(seed, c) + [Mix(Advance(st))]
  {
  }

  /**
   * The closure returned by `createSeededRandom(seed)`, with its captured
   * `state`. The ghost `seed` and `calls` record where in its stream it is;
   * `stream` is that stream, `SeededStream(seed)`, named once so that a
   * caller can speak of its draws without unfolding the mixing step.
   */
  class SeededRandom {
    var state: U32
    ghost const seed: U32
    ghost const stream: Stream
    ghost var calls: nat

    /** The state is the one `calls` calls leave, and `stream` lists the draws of `seed`. */
    ghost predicate Valid()
      reads this
    {
      && state == StateAfter(seed, calls)
      && forall i {:trigger SeededDraw(seed, i)} :: stream(i) == SeededDraw(seed, i)
    }

    constructor (seed: U32)
      ensures state == seed && this.seed == seed && calls == 0
      ensures stream == SeededStream(seed)
      ensures Valid()
    {
      state := seed;
      this.seed := seed;
      stream := SeededStream(seed);
      calls := 0;
    }

    /** One call of the closure: the draws so far are `Draws(seed, calls)`, one per call. */
    method Next() returns (n: U32)
      requires Valid()
      modifies this
      ensures Valid()
      ensures state == Advance(old(state))
      ensures n == Mix(state)
      ensures calls == old(calls) + 1
      ensures n == stream(old(calls))
      ensures Draws(seed, calls) == Draws(seed, old(calls)) + [n]
    {
      NextDraw(seed, calls, state);
      assert stream(calls) == SeededDraw(seed, calls);
      state := Advance(state);
      calls := calls + 1;
      n := Mix(state);
    }
  }

  /** Where a draw comes from: `Math.random()` itself or `getRandom()`. */
  datatype Channel = MathRandomCall | GetRandomCall

  /**
   * Where the next draws of one question come from: the operation and the
   * operands from one stream (`Shared`), or the operation from the seeded
   * stream and the operands from `Math.random()` (`Split`).
   */
  datatype Cursor = Shared(s: Stream, i: nat) | Split(os: Stream, oi: nat, ms: Stream, mi: nat)

  /** The module-level `_random` of the source: `Math.random` or an installed seeded stream. */
  class RandomSource {
    /** The installed stream; `null` while the default `Math.random` is active. */
    var seeded: SeededRandom?
    /** The global `Math.random`. */
    const math: MathRandom

    constructor (math: MathRandom)
      ensures seeded == null && this.math == math
    {
      seeded := null;
      this.math := math;
    }

    ghost predicate Valid()
      reads this, seeded
    {
      seeded != null ==> seeded.Valid()
    }

    /** The stream a channel draws from. */
    ghost function StreamOf(ch: Channel): Stream
      reads this
    {
      if ch == GetRandomCall && seeded != null then seeded.stream else math.draws
    }

    /** How many draws of that stream are used up. */
    ghost function PosOf(ch: Channel): nat
      reads this, math, seeded
    {
      if ch == GetRandomCall && seeded != null then seeded.calls else math.pos
    }

    /**
     * The cursor of a question whose operation is drawn with `getRandom()`
     * and whose operands are drawn on `operands`.
     */
    ghost function CursorFor(operands: Channel): Cursor
      reads this, math, seeded
    {
      if operands == GetRandomCall || seeded == null then Shared(StreamOf(GetRandomCall), PosOf(GetRandomCall))
      else Split(seeded.stream, seeded.calls, math.draws, math.pos)
    }

    /**
     * Only draws on `ch` were made since the previous state: the same stream
     * is installed and still consistent, and the other stream is untouched.
     */
    twostate predicate Drew(ch: Channel)
      reads this, math, seeded
    {
      && seeded == old(seeded)
      && Valid()
      && StreamOf(ch) == old(StreamOf(ch))
      && PosOf(ch) >= old(PosOf(ch))
      && (seeded != null && ch == MathRandomCall ==> unchanged(seeded))
      && (seeded != null && ch == GetRandomCall ==> unchanged(math))
    }

    /** `getRandom()`: a draw from whichever source is installed. */
    method GetRandom() returns (n: U32)
      requires Valid()
      modifies seeded, math
      ensures Drew(GetRandomCall)
      ensures seeded != null ==> seeded.state == Advance(old(seeded.state))
      ensures n == StreamOf(GetRandomCall)(old(PosOf(GetRandomCall)))
      ensures PosOf(GetRandomCall) == old(PosOf(GetRandomCall)) + 1
    {
      if seeded == null {
        n := math.Next();
      } else {
        n := seeded.Next();
      }
    }

    /** A draw on a channel: `Math.random()` or `getRandom()`. */
    method Draw(ch: Channel) returns (n: U32)
      requires Valid()
      modifies seeded, math
      ensures Drew(ch)
      ensures n == StreamOf(ch)(old(PosOf(ch)))
      ensures PosOf(ch) == old(PosOf(ch)) + 1
    {
      if ch == MathRandomCall {
        n := math.Next();
      } else {
        n := GetRandom();
      }
    }

    /** `setRandom(fn)` for a seeded stream. */
    method SetRandom(g: SeededRandom)
      modifies this
      ensures seeded == g
    {
      seeded := g;
    }

    /** `resetRandom()`: `Math.random` is active again. */
    method ResetRandom()
      modifies this
      ensures seeded == null
    {
      seeded := null;
    }
  }
}
