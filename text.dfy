/**
 * String helpers of the JavaScript runtime that the source relies on:
 * `indexOf` of a character, `startsWith`, and `split` on a one-character
 * separator with its inverse `join`.
 */
module Text {

  /** `s.startsWith(p)`. */
  predicate StartsWith(s: string, p: string) {
    |p| <= |s| && s[..|p|] == p
  }

  /** `s.indexOf(c)`: the position of the first `c`, or -1. */
  function IndexOf(s: string, c: char): (i: int)
    ensures -1 <= i < |s|
    ensures i >= 0 ==> s[i] == c && c !in s[..i]
    ensures i < 0 ==> c !in s
  {
    if s == [] then -1
    else if s[0] == c then 0
    else
      var j := IndexOf(s[1..], c);
      if j < 0 then -1
      else
        assert s[..j + 1] == [s[0]] + s[1..][..j];
        j + 1
  }

  lemma IndexOfFirst(l: string, c: char, r: string)
    requires c !in l
    ensures IndexOf(l + [c] + r, c) == |l|
  {
    var s := l + [c] + r;
    assert s[|l|] == c;
    assert s[..|l|] == l;
  }

  /** A string with one separator before its first occurrence splits uniquely there. */
  lemma SplitAtFirst(x: string, y: string, x': string, y': string, c: char)
    requires c !in x && c !in x'
    requires x + [c] + y == x' + [c] + y'
    ensures x == x' && y == y'
  {
    var s := x + [c] + y;
    assert s[|x|] == c;
    assert s[|x'|] == c;
    assert x == s[..|x|] && x' == s[..|x'|];
    assert y == s[|x| + 1..] && y' == s[|x'| + 1..];
  }

  /** `s.split(c)` for a one-character separator. */
  function Split(s: string, c: char): (parts: seq<string>)
    ensures |parts| >= 1
    ensures forall j :: 0 <= j < |parts| ==> c !in parts[j]
    decreases |s|
  {
    var i := IndexOf(s, c);
    if i < 0 then [s]
    else
      var rest := Split(s[i + 1..], c);
      ConsFree(s[..i], rest, c);
      [s[..i]] + rest
  }

  /** Putting a separator-free piece in front keeps every piece separator-free. */
  lemma ConsFree(x: string, rest: seq<string>, c: char)
    requires c !in x
    requires forall j :: 0 <= j < |rest| ==> c !in rest[j]
    ensures forall j :: 0 <= j < |[x] + rest| ==> c !in ([x] + rest)[j]
  {
    var parts := [x] + rest;
    forall j | 0 <= j < |parts|
      ensures c !in parts[j]
    {
      if j > 0 {
        assert parts[j] == rest[j - 1];
      }
    }
  }

  /** `parts.join(c)`. */
  function Join(parts: seq<string>, c: char): string
    requires |parts| >= 1
  {
    if |parts| == 1 then parts[0] else parts[0] + [c] + Join(parts[1..], c)
  }

  /** Joining the pieces of a split gives back the string. */
  lemma {:induction false} JoinSplit(s: string, c: char)
    ensures Join(Split(s, c), c) == s
    decreases |s|
  {
    var i := IndexOf(s, c);
    if i < 0 {
      assert Split(s, c) == [s];
    } else {
      JoinSplitFirst(s, c);
      JoinSplit(s[i + 1..], c);
      Around(s, i);
    }
  }

  /** A string is the part before position `i`, the character there and the part after it. */
  lemma Around(s: string, i: nat)
    requires i < |s|
    ensures s[..i] + [s[i]] + s[i + 1..] == s
  {
  }

  /** A string with a separator joins back as its first piece, the separator and the join of the rest. */
  lemma JoinSplitFirst(s: string, c: char)
    requires IndexOf(s, c) >= 0
    ensures Join(Split(s, c), c) == s[..IndexOf(s, c)] + [c] + Join(Split(s[IndexOf(s, c) + 1..], c), c)
  {
    var i := IndexOf(s, c);
    SplitUnfold(s, c);
    JoinCons(s[..i], Split(s[i + 1..], c), c);
  }

  /** A string with a separator splits into the piece before it and the split of the rest. */
  lemma SplitUnfold(s: string, c: char)
    requires IndexOf(s, c) >= 0
    ensures Split(s, c) == [s[..IndexOf(s, c)]] + Split(s[IndexOf(s, c) + 1..], c)
  {
  }

  /** Joining a piece in front of at least one more puts a separator after it. */
  lemma JoinCons(x: string, rest: seq<string>, c: char)
    requires |rest| >= 1
    ensures Join([x] + rest, c) == x + [c] + Join(rest, c)
  {
    assert ([x] + rest)[1..] == rest;
  }

  /** Splitting pieces that do not contain the separator gives back the pieces. */
  lemma {:induction false} SplitJoin(parts: seq<string>, c: char)
    requires |parts| >= 1
    requires forall j :: 0 <= j < |parts| ==> c !in parts[j]
    ensures Split(Join(parts, c), c) == parts
  {
    if |parts| > 1 {
      var rest := Join(parts[1..], c);
      var s := parts[0] + [c] + rest;
      IndexOfFirst(parts[0], c, rest);
      assert s[..|parts[0]|] == parts[0];
      assert s[|parts[0]| + 1..] == rest;
      SplitJoin(parts[1..], c);
      assert parts == [parts[0]] + parts[1..];
    }
  }
}
