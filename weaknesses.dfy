/**
 * The weakness summary of src/persistence/weaknesses.ts: the short display
 * form of a skill key, and the aggregation of attempts into per-key counts,
 * filtered to keys answered at least twice with a mistake, ordered by
 * error rate and cut to the top N.
 */
module Weaknesses {
  import opened Wrappers
  import opened Decimal
  import opened Records
  import opened Sorting
  import opened Text
  import opened Generator

  // ---------------------------------------------------------------------------
  // Display text

  /** The operand at position `i` of a split, or `"?"` when absent (`a ?? "?"`). */
  function Part(parts: seq<string>, i: nat): string {
    if i < |parts| then parts[i] else "?"
  }

  function Symbol(op: Operation): char {
    match op
    case Add => '\U{FF0B}'
    case Sub => '\U{FF0D}'
    case Mul => '\U{00D7}'
    case Div => '\U{00F7}'
  }

  /**
   * `skillKeyToDisplay`: the two operands around the operation's symbol,
   * read from the `_`-separated fields (from the `x`-separated fields after
   * the prefix for products); any other key is shown unchanged. What it
   * shows for the prefixed keys is stated by `DisplayOfUnderscoreKey`,
   * `DisplayOfMulKey` and `DisplayOfBuiltKey` below.
   */
  function SkillKeyToDisplay(key: string): (text: string)
    ensures (!StartsWith(key, Prefix(Add)) && !StartsWith(key, Prefix(Sub)) &&
             !StartsWith(key, Prefix(Mul)) && !StartsWith(key, Prefix(Div))) ==> text == key
  {
    if StartsWith(key, "add_") then
      var p := Split(key, '_'); Part(p, 1) + [Symbol(Add)] + Part(p, 2)
    else if StartsWith(key, "sub_") then
      var p := Split(key, '_'); Part(p, 1) + [Symbol(Sub)] + Part(p, 2)
    else if StartsWith(key, "mul_") then
      var p := Split(key[4..], 'x'); Part(p, 0) + [Symbol(Mul)] + Part(p, 1)
    else if StartsWith(key, "div_") then
      var p := Split(key, '_'); Part(p, 1) + [Symbol(Div)] + Part(p, 2)
    else key
  }

  /** A key built for (op, a, b) is shown as a, the operation's symbol, b. */
  lemma DisplayOfBuiltKey(op: Operation, a: int, b: int)
    ensures SkillKeyToDisplay(SkillKeyFor(op, a, b)) == IntToString(a) + [Symbol(op)] + IntToString(b)
  {
    var sa, sb := IntToString(a), IntToString(b);
    if op == Mul {
      IntToStringChars(a, 'x');
      IntToStringChars(b, 'x');
      DisplayOfMulKey(sa, sb);
    } else {
      IntToStringChars(a, '_');
      IntToStringChars(b, '_');
      DisplayOfUnderscoreKey(op, sa, sb);
    }
  }

  /** A product key shows its two `x`-separated fields around the times sign. */
  lemma DisplayOfMulKey(sa: string, sb: string)
    requires 'x' !in sa && 'x' !in sb
    ensures SkillKeyToDisplay("mul_" + sa + ['x'] + sb) == sa + [Symbol(Mul)] + sb
  {
    var key := "mul_" + sa + ['x'] + sb;
    assert key[..4] == "mul_" && key[4..] == sa + ['x'] + sb;
    assert !StartsWith(key, "add_") && !StartsWith(key, "sub_") by {
      assert key[0] == 'm';
    }
    SplitPair(sa, sb, 'x');
  }

  /** A sum, difference or quotient key shows its second and third `_`-separated fields. */
  lemma DisplayOfUnderscoreKey(op: Operation, sa: string, sb: string)
    requires op != Mul && '_' !in sa && '_' !in sb
    ensures SkillKeyToDisplay(Prefix(op) + sa + ['_'] + sb) == sa + [Symbol(op)] + sb
  {
    var key := Prefix(op) + sa + ['_'] + sb;
    assert key[..4] == Prefix(op);
    match op {
      case Add =>
        assert key == "add" + ['_'] + sa + ['_'] + sb;
        assert StartsWith(key, "add_");
        UnderscoreFields("add", sa, sb);
      case Sub =>
        assert key == "sub" + ['_'] + sa + ['_'] + sb;
        assert key[0] == 's';
        assert !StartsWith(key, "add_") && StartsWith(key, "sub_");
        UnderscoreFields("sub", sa, sb);
      case Div =>
        assert key == "div" + ['_'] + sa + ['_'] + sb;
        assert key[0] == 'd';
        assert !StartsWith(key, "add_") && !StartsWith(key, "sub_") && !StartsWith(key, "mul_");
        assert StartsWith(key, "div_");
        UnderscoreFields("div", sa, sb);
    }
  }

  /** The second and third fields of `name_sa_sb` are `sa` and `sb`. */
  lemma UnderscoreFields(name: string, sa: string, sb: string)
    requires '_' !in name && '_' !in sa && '_' !in sb
    ensures var p := Split(name + ['_'] + sa + ['_'] + sb, '_'); Part(p, 1) == sa && Part(p, 2) == sb
  {
    SplitTriple(name, sa, sb, '_');
  }

  /** Two separator-free pieces joined by the separator split back into them. */
  lemma SplitPair(x: string, y: string, c: char)
    requires c !in x && c !in y
    ensures Split(x + [c] + y, c) == [x, y]
  {
    assert Join([x, y], c) == x + [c] + y;
    SplitJoin([x, y], c);
  }

  /** Three separator-free pieces joined by the separator split back into them. */
  lemma SplitTriple(x: string, y: string, z: string, c: char)
    requires c !in x && c !in y && c !in z
    ensures Split(x + [c] + y + [c] + z, c) == [x, y, z]
  {
    assert Join([y, z], c) == y + [c] + z;
    assert Join([x, y, z], c) == x + [c] + (y + [c] + z);
    assert x + [c] + y + [c] + z == x + [c] + (y + [c] + z);
    SplitJoin([x, y, z], c);
  }

  /** A missing operand shows as a question mark. */
  lemma DisplayMissingOperand()
    ensures SkillKeyToDisplay("add_3") == "3\U{FF0B}?"
  {
    assert "add_3" == Join(["add", "3"], '_');
    SplitJoin(["add", "3"], '_');
  }

  // ---------------------------------------------------------------------------
  // Counting

  /** An `AttemptRecord` as far as the summary reads it. */
  datatype Attempt = Attempt(skillKey: Option<string>, correct: bool)

  /** `r.skillKey ?? ""`. */
  function KeyOf(a: Attempt): string {
    a.skillKey.GetOr("")
  }

  datatype Tally = Tally(total: nat, wrong: nat)

  /** The number of attempts at key `k`. */
  function Total(s: seq<Attempt>, k: string): nat {
    if s == [] then 0
    else Total(s[..|s| - 1], k) + (if KeyOf(s[|s| - 1]) == k then 1 else 0)
  }

  /** The number of incorrect attempts at key `k`. */
  function Wrong(s: seq<Attempt>, k: string): nat {
    if s == [] then 0
    else Wrong(s[..|s| - 1], k) + (if KeyOf(s[|s| - 1]) == k && !s[|s| - 1].correct then 1 else 0)
  }

  lemma {:induction false} WrongAtMostTotal(s: seq<Attempt>, k: string)
    ensures Wrong(s, k) <= Total(s, k)
  {
    if s != [] {
      WrongAtMostTotal(s[..|s| - 1], k);
    }
  }

  /** `total += 1`, and `wrong += 1` for an incorrect attempt. */
  function Counted(t: Tally, a: Attempt): Tally {
    Tally(t.total + 1, t.wrong + if a.correct then 0 else 1)
  }

  /** The tallies after one more attempt; a new key starts from zero counts. */
  function Bump(r: Record<Tally>, a: Attempt): Record<Tally> {
    Put(r, KeyOf(a), Counted(Get(r, KeyOf(a)).GetOr(Tally(0, 0)), a))
  }

  /** The `byKey` dictionary after all of `s`. */
  function Tallies(s: seq<Attempt>): Record<Tally> {
    if s == [] then [] else Bump(Tallies(s[..|s| - 1]), s[|s| - 1])
  }

  /** No key occurs twice in the tallies. */
  lemma {:induction false} TalliesValid(s: seq<Attempt>)
    ensures Valid(Tallies(s))
  {
    if s != [] {
      var p, a := s[..|s| - 1], s[|s| - 1];
      TalliesValid(p);
      KeysPut(Tallies(p), KeyOf(a), Counted(Get(Tallies(p), KeyOf(a)).GetOr(Tally(0, 0)), a));
    }
  }

  /**
   * A key is in the tallies exactly when some attempt has it, and its entry
   * counts that key's attempts and mistakes.
   */
  lemma {:induction false} TalliesCount(s: seq<Attempt>, k: string)
    ensures Total(s, k) == 0 ==> Get(Tallies(s), k).None?
    ensures Total(s, k) > 0 ==> Get(Tallies(s), k) == Some(Tally(Total(s, k), Wrong(s, k)))
  {
    if s != [] {
      var p, a := s[..|s| - 1], s[|s| - 1];
      TalliesCount(p, k);
      GetBump(Tallies(p), a, k);
      var tp := Tallies(p);
      assert Tallies(s) == Bump(tp, a);
      if KeyOf(a) == k {
        assert Total(s, k) == Total(p, k) + 1;
        assert Wrong(s, k) == Wrong(p, k) + if a.correct then 0 else 1;
        WrongAtMostTotal(p, k);
        var prev := Get(tp, k).GetOr(Tally(0, 0));
        assert prev == Tally(Total(p, k), Wrong(p, k));
        assert Get(Tallies(s), k) == Some(Counted(prev, a));
        assert Counted(prev, a) == Tally(Total(s, k), Wrong(s, k));
      } else {
        assert Total(s, k) == Total(p, k) && Wrong(s, k) == Wrong(p, k);
        assert Get(Tallies(s), k) == Get(tp, k);
        if Total(s, k) > 0 {
          assert Get(tp, k) == Some(Tally(Total(p, k), Wrong(p, k)));
        }
      }
    }
  }

  lemma GetBump(r: Record<Tally>, a: Attempt, k: string)
    ensures KeyOf(a) == k ==> Get(Bump(r, a), k) == Some(Counted(Get(r, k).GetOr(Tally(0, 0)), a))
    ensures KeyOf(a) != k ==> Get(Bump(r, a), k) == Get(r, k)
  {
    GetPut(r, KeyOf(a), Counted(Get(r, KeyOf(a)).GetOr(Tally(0, 0)), a), k);
  }

  /** The counting loop of `getWeaknessStats`. */
  method CountAttempts(all: seq<Attempt>) returns (byKey: Record<Tally>)
    ensures byKey == Tallies(all)
  {
    byKey := [];
    for i := 0 to |all|
      invariant byKey == Tallies(all[..i])
    {
      assert all[..i + 1][..i] == all[..i];
      ghost var before := byKey;
      var k := KeyOf(all[i]);
      GetHas(byKey, k);
      if !Has(byKey, k) {
        GetPut(byKey, k, Tally(0, 0), k);
        byKey := Put(byKey, k, Tally(0, 0));
      }
      var t := Get(byKey, k).value;
      assert t == Get(before, k).GetOr(Tally(0, 0));
      var counted := Tally(t.total + 1, t.wrong);
      var last := Counted(t, all[i]);
      PutPut(byKey, k, counted, last);
      if !Has(before, k) {
        PutPut(before, k, Tally(0, 0), last);
      }
      assert Put(Put(byKey, k, counted), k, last) == Bump(before, all[i]);
      byKey := Put(byKey, k, counted);
      if !all[i].correct {
        byKey := Put(byKey, k, last);
      } else {
        assert counted == last;
      }
    }
    assert all[..|all|] == all;
  }

  // ---------------------------------------------------------------------------
  // Filter, order and cut

  /** A `WeaknessItem`; `wrongRate` is `wrong / total` and is compared by cross-multiplication. */
  datatype WeaknessItem = WeaknessItem(skillKey: string, total: nat, wrong: nat, displayText: string)

  /** The filter of `getWeaknessStats`: answered at least twice, with a mistake. */
  predicate Listable(t: Tally) {
    t.total >= 2 && t.wrong > 0
  }

  /** The map step of `getWeaknessStats`. */
  function ToItem(e: Entry<Tally>): WeaknessItem {
    WeaknessItem(e.key, e.value.total, e.value.wrong, SkillKeyToDisplay(e.key))
  }

  /** `Object.entries(byKey).filter(...).map(...)`, in entry order. */
  function Qualifying(r: Record<Tally>): (items: seq<WeaknessItem>)
    ensures forall it :: it in items ==>
      it.total >= 2 && it.wrong > 0 && Entry(it.skillKey, Tally(it.total, it.wrong)) in r
      && it.displayText == SkillKeyToDisplay(it.skillKey)
    ensures forall e :: e in r && Listable(e.value) ==> ToItem(e) in items
  {
    if r == [] then []
    else
      assert forall e :: e in r ==> e == r[0] || e in r[1..];
      (if Listable(r[0].value) then [ToItem(r[0])] else []) + Qualifying(r[1..])
  }

  /** `b.wrongRate - a.wrongRate <= 0`, i.e. x's error rate is at least y's. */
  predicate RateGeq(x: WeaknessItem, y: WeaknessItem) {
    x.wrong * y.total >= y.wrong * x.total
  }

  lemma MulMonotone(a: int, b: int, c: int)
    requires a >= b && c >= 0
    ensures a * c >= b * c
  {
    ProductNonNegative(a - b, c);
    assert (a - b) * c == a * c - b * c;
  }

  lemma MulCancelGeq(a: int, b: int, c: int)
    requires c > 0 && a * c >= b * c
    ensures a >= b
  {
    assert (b - a) * c == b * c - a * c;
    if a < b {
      ProductPositive(b - a, c);
      assert false;
    }
  }

  lemma RateGeqTransitive(x: WeaknessItem, y: WeaknessItem, z: WeaknessItem)
    requires x.total > 0 && y.total > 0 && z.total > 0
    requires RateGeq(x, y) && RateGeq(y, z)
    ensures RateGeq(x, z)
  {
    MulMonotone(x.wrong * y.total, y.wrong * x.total, z.total);
    MulMonotone(y.wrong * z.total, z.wrong * y.total, x.total);
    assert (x.wrong * y.total) * z.total == (x.wrong * z.total) * y.total;
    assert (y.wrong * x.total) * z.total == (y.wrong * z.total) * x.total;
    assert (z.wrong * y.total) * x.total == (z.wrong * x.total) * y.total;
    MulCancelGeq(x.wrong * z.total, z.wrong * x.total, y.total);
  }

  /** Error rates of items with positive totals are totally preordered. */
  lemma RateGeqTotalPreorder(dom: set<WeaknessItem>)
    requires forall it :: it in dom ==> it.total > 0
    ensures TotalPreorderOn(RateGeq, dom)
  {
    forall x, y, z | x in dom && y in dom && z in dom && RateGeq(x, y) && RateGeq(y, z)
      ensures RateGeq(x, z)
    {
      RateGeqTransitive(x, y, z);
    }
  }

  /** Where `slice(0, n)` ends on a list of length `len`; a negative `n` counts from the end. */
  function SliceEnd(len: nat, n: int): (end: nat)
    ensures end <= len
    ensures n >= 0 ==> end == Min(n, len)
    ensures n < 0 ==> end == Max(0, len + n)
  {
    if n >= 0 then Min(n, len) else Max(0, len + n)
  }

  /** The listed items: qualifying, sorted by error rate (ties in entry order), first `topN`. */
  function WeaknessList(r: Record<Tally>, topN: int): (items: seq<WeaknessItem>)
    ensures |items| == SliceEnd(|Qualifying(r)|, topN)
    ensures topN >= 0 ==> |items| <= topN
    ensures items == SortDesc(Qualifying(r), RateGeq)[..|items|]
    ensures multiset(items) <= multiset(Qualifying(r))
    ensures forall it :: it in items ==> it in Qualifying(r)
    ensures topN >= |Qualifying(r)| ==> multiset(items) == multiset(Qualifying(r))
  {
    var q := Qualifying(r);
    var sorted := SortDesc(q, RateGeq);
    var cut := SliceEnd(|sorted|, topN);
    PrefixSubMultiset(sorted, cut);
    assert forall it :: it in sorted[..cut] ==> it in sorted;
    assert cut == |sorted| ==> sorted[..cut] == sorted;
    sorted[..cut]
  }

  /** A prefix holds no more of anything than the whole sequence. */
  lemma PrefixSubMultiset<T>(s: seq<T>, cut: nat)
    requires cut <= |s|
    ensures multiset(s[..cut]) <= multiset(s)
  {
    assert s == s[..cut] + s[cut..];
  }

  /**
   * The list is ordered by error rate, and every qualifying item left out
   * has an error rate no higher than any listed one.
   */
  lemma WeaknessListTop(r: Record<Tally>, topN: int)
    ensures SortedBy(WeaknessList(r, topN), RateGeq)
    ensures forall it, other ::
      (it in WeaknessList(r, topN) && other in Qualifying(r) && other !in WeaknessList(r, topN))
      ==> RateGeq(it, other)
  {
    var q := Qualifying(r);
    var sorted := SortDesc(q, RateGeq);
    var dom := set it | it in q;
    RateGeqTotalPreorder(dom);
    SortDescSorted(q, RateGeq, dom);
    var cut := SliceEnd(|sorted|, topN);
    SortedSplit(sorted, RateGeq, cut);
    var items := WeaknessList(r, topN);
    assert items == sorted[..cut];
    forall it, other | it in items && other in q && other !in items
      ensures RateGeq(it, other)
    {
      InSuffix(sorted, cut, other);
    }
  }

  /** An element of `s` that is not among its first `cut` is among the rest. */
  lemma InSuffix<T>(s: seq<T>, cut: nat, x: T)
    requires cut <= |s| && x in s && x !in s[..cut]
    ensures x in s[cut..]
  {
    assert s == s[..cut] + s[cut..];
  }

  /** Each listed item carries its own key's attempt and mistake counts. */
  lemma ListedCounts(all: seq<Attempt>, topN: int)
    ensures forall it :: it in WeaknessList(Tallies(all), topN) ==>
      it.total == Total(all, it.skillKey) && it.wrong == Wrong(all, it.skillKey)
      && it.total >= 2 && it.wrong > 0 && it.displayText == SkillKeyToDisplay(it.skillKey)
  {
    var byKey := Tallies(all);
    TalliesValid(all);
    forall it | it in WeaknessList(byKey, topN)
      ensures it.total == Total(all, it.skillKey) && it.wrong == Wrong(all, it.skillKey)
    {
      GetOfEntry(byKey, it.skillKey, Tally(it.total, it.wrong));
      TalliesCount(all, it.skillKey);
    }
  }

  /** A qualifying key left off the list has an error rate no higher than any listed item. */
  lemma UnlistedRankLower(all: seq<Attempt>, topN: int)
    ensures var items := WeaknessList(Tallies(all), topN);
      forall it, k ::
        (it in items && Total(all, k) >= 2 && Wrong(all, k) > 0 &&
         (forall j :: 0 <= j < |items| ==> items[j].skillKey != k))
        ==> it.wrong * Total(all, k) >= Wrong(all, k) * it.total
  {
    var byKey := Tallies(all);
    var items := WeaknessList(byKey, topN);
    WeaknessListTop(byKey, topN);
    forall it, k | it in items && Total(all, k) >= 2 && Wrong(all, k) > 0 &&
      (forall j :: 0 <= j < |items| ==> items[j].skillKey != k)
      ensures it.wrong * Total(all, k) >= Wrong(all, k) * it.total
    {
      var other := QualifyingItemOf(all, k);
      assert RateGeq(it, other);
    }
  }

  /** When `topN` reaches the number of qualifying keys, every one of them is listed. */
  lemma ListsAllWhenRoom(all: seq<Attempt>, topN: int)
    requires topN >= |Qualifying(Tallies(all))|
    ensures var items := WeaknessList(Tallies(all), topN);
      forall k :: Total(all, k) >= 2 && Wrong(all, k) > 0 ==>
        exists j :: 0 <= j < |items| && items[j].skillKey == k
  {
    var items := WeaknessList(Tallies(all), topN);
    forall k | Total(all, k) >= 2 && Wrong(all, k) > 0
      ensures exists j :: 0 <= j < |items| && items[j].skillKey == k
    {
      var other := QualifyingItemOf(all, k);
      assert other in multiset(items);
      var j :| 0 <= j < |items| && items[j] == other;
    }
  }

  /** A key answered at least twice with a mistake has its item among the qualifying ones. */
  lemma QualifyingItemOf(all: seq<Attempt>, k: string) returns (it: WeaknessItem)
    requires Total(all, k) >= 2 && Wrong(all, k) > 0
    ensures it in Qualifying(Tallies(all))
    ensures it.skillKey == k && it.total == Total(all, k) && it.wrong == Wrong(all, k)
  {
    TalliesCount(all, k);
    var e := Entry(k, Tally(Total(all, k), Wrong(all, k)));
    GetHas(Tallies(all), k);
    assert e in Tallies(all);
    it := ToItem(e);
  }

  /**
   * `getWeaknessStats(topN)` over the stored attempts: each listed key with
   * its own attempt and mistake counts, at least two attempts and a
   * mistake, ordered by error rate, exactly the first `topN` (default 5) of
   * them as `slice` cuts, every qualifying key when `topN` reaches their
   * number, and no unlisted qualifying key with a higher error rate than a
   * listed one.
   */
  method GetWeaknessStats(all: seq<Attempt>, topN: Option<int>) returns (items: seq<WeaknessItem>)
    ensures items == WeaknessList(Tallies(all), topN.GetOr(5))
    ensures |items| == SliceEnd(|Qualifying(Tallies(all))|, topN.GetOr(5))
    ensures forall it :: it in items ==>
      it.total == Total(all, it.skillKey) && it.wrong == Wrong(all, it.skillKey)
      && it.total >= 2 && it.wrong > 0 && it.displayText == SkillKeyToDisplay(it.skillKey)
    ensures topN.GetOr(5) >= 0 ==> |items| <= topN.GetOr(5)
    ensures SortedBy(items, RateGeq)
    ensures forall it, k ::
      (it in items && Total(all, k) >= 2 && Wrong(all, k) > 0 &&
       (forall j :: 0 <= j < |items| ==> items[j].skillKey != k))
      ==> it.wrong * Total(all, k) >= Wrong(all, k) * it.total
    ensures topN.GetOr(5) >= |Qualifying(Tallies(all))| ==>
      forall k :: Total(all, k) >= 2 && Wrong(all, k) > 0 ==>
        exists j :: 0 <= j < |items| && items[j].skillKey == k
  {
    var n := topN.GetOr(5);
    var byKey := CountAttempts(all);
    items := WeaknessList(byKey, n);
    WeaknessListTop(byKey, n);
    ListedCounts(all, n);
    UnlistedRankLower(all, n);
    if n >= |Qualifying(byKey)| {
      ListsAllWhenRoom(all, n);
    }
  }
}
