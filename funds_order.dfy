/** `funds.sort_by(|c1, c2| c1.denom.cmp(&c2.denom))`: coins ordered by denom
    in Rust's `String` order, which compares UTF-8 bytes and therefore code
    points, as `LexLe` does on Dafny strings. */
module FundsOrder {
  import opened Assets

  /** `a <= b` in lexicographic order (a proper prefix comes first). */
  predicate LexLe(a: string, b: string)
    decreases |a|
  {
    a == [] || (b != [] && (a[0] < b[0] || (a[0] == b[0] && LexLe(a[1..], b[1..]))))
  }

  /** Any two strings are comparable. */
  lemma {:induction false} LexTotal(a: string, b: string)
    ensures LexLe(a, b) || LexLe(b, a)
    decreases |a|
  {
    if a != [] && b != [] && a[0] == b[0] {
      LexTotal(a[1..], b[1..]);
    }
  }

  /** Each coin's denom is no greater than the next one's. */
  predicate SortedByDenom(s: seq<Coin>)
    decreases |s|
  {
    |s| < 2 || (LexLe(s[0].denom, s[1].denom) && SortedByDenom(s[1..]))
  }

  /** Insert `c` into a sorted list before the first coin it does not exceed. */
  function InsertByDenom(c: Coin, s: seq<Coin>): (r: seq<Coin>)
    requires SortedByDenom(s)
    ensures SortedByDenom(r)
    ensures multiset(r) == multiset(s) + multiset{c}
    ensures |r| == |s| + 1 && (r[0] == c || (s != [] && r[0] == s[0]))
  {
    if s == [] then [c]
    else if LexLe(c.denom, s[0].denom) then [c] + s
    else
      LexTotal(c.denom, s[0].denom);
      var rest := InsertByDenom(c, s[1..]);
      KeepHead(c, s, rest);
      [s[0]] + rest
  }

  /** Putting the head of a sorted list back in front of the insertion into
      its tail keeps the list sorted and holds the same coins. */
  lemma {:induction false} KeepHead(c: Coin, s: seq<Coin>, rest: seq<Coin>)
    requires s != [] && SortedByDenom(s) && LexLe(s[0].denom, c.denom)
    requires SortedByDenom(rest) && multiset(rest) == multiset(s[1..]) + multiset{c}
    requires |rest| == |s| && (rest[0] == c || (|s| > 1 && rest[0] == s[1]))
    ensures SortedByDenom([s[0]] + rest)
    ensures multiset([s[0]] + rest) == multiset(s) + multiset{c}
  {
    assert s == [s[0]] + s[1..];
    assert ([s[0]] + rest)[1..] == rest;
  }

  /** A stable insertion sort by denom: the result is ordered and holds
      exactly the given coins. */
  function SortByDenom(s: seq<Coin>): (r: seq<Coin>)
    ensures SortedByDenom(r)
    ensures multiset(r) == multiset(s)
  {
    if s == [] then []
    else
      assert s == [s[0]] + s[1..];
      InsertByDenom(s[0], SortByDenom(s[1..]))
  }
}
