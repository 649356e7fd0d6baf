/** The Astroport asset abstraction: a native ledger denom or a CW20 token
    address, paired with an amount; and the list functions the stages are
    specified with. */
module Assets {
  import opened Uint128

  /** The stable denom every mint is paid in. */
  const UUSD: string := "uusd"

  datatype AssetInfo = NativeToken(denom: string) | Token(contractAddr: string)

  /** In a cluster's target list `amount` is a weight, elsewhere a holding. */
  datatype Asset = Asset(info: AssetInfo, amount: u128)

  /** A bank coin, as carried in `funds` and in market swaps. */
  datatype Coin = Coin(denom: string, amount: u128)

  predicate IsUusd(a: Asset) {
    a.info == NativeToken(UUSD)
  }

  /** The native denoms of a target list, in order (`uusd` included). */
  function NativeDenoms(t: seq<Asset>): (r: seq<string>)
    ensures |r| <= |t|
  {
    if t == [] then []
    else (if t[0].info.NativeToken? then [t[0].info.denom] else []) + NativeDenoms(t[1..])
  }

  /** The token addresses of a target list, in order. */
  function TokenAddrs(t: seq<Asset>): (r: seq<string>)
    ensures |r| <= |t|
  {
    if t == [] then []
    else (if t[0].info.Token? then [t[0].info.contractAddr] else []) + TokenAddrs(t[1..])
  }

  /** Every component of a target list is either a native or a token: the
      two lists together are as long as the target. */
  lemma {:induction false} KindsCover(t: seq<Asset>)
    ensures |NativeDenoms(t)| + |TokenAddrs(t)| == |t|
  {
    if t != [] {
      KindsCover(t[1..]);
    }
  }

  /** How many components of a target list are not native `uusd`. */
  function CountNonUusd(t: seq<Asset>): (n: nat)
    ensures n <= |t|
  {
    if t == [] then 0 else (if IsUusd(t[0]) then 0 else 1) + CountNonUusd(t[1..])
  }

  /** The exact (unbounded) sum of the amounts of a list. */
  function SumAmounts(t: seq<Asset>): nat {
    if t == [] then 0 else t[0].amount + SumAmounts(t[1..])
  }

  function Amounts(t: seq<Asset>): (r: seq<u128>)
    ensures |r| == |t| && forall i :: 0 <= i < |t| ==> r[i] == t[i].amount
  {
    if t == [] then [] else [t[0].amount] + Amounts(t[1..])
  }

  function Infos(t: seq<Asset>): (r: seq<AssetInfo>)
    ensures |r| == |t| && forall i :: 0 <= i < |t| ==> r[i] == t[i].info
  {
    if t == [] then [] else [t[0].info] + Infos(t[1..])
  }

  /** The asset infos of a list of native denoms. */
  function NativeInfos(d: seq<string>): (r: seq<AssetInfo>)
    ensures |r| == |d| && forall i :: 0 <= i < |d| ==> r[i] == NativeToken(d[i])
  {
    if d == [] then [] else [NativeToken(d[0])] + NativeInfos(d[1..])
  }

  /** The asset infos of a list of token addresses. */
  function TokenInfos(d: seq<string>): (r: seq<AssetInfo>)
    ensures |r| == |d| && forall i :: 0 <= i < |d| ==> r[i] == Token(d[i])
  {
    if d == [] then [] else [Token(d[0])] + TokenInfos(d[1..])
  }

  /** Listing a target's natives and then its tokens rearranges its
      components: nothing is lost, duplicated or invented. */
  lemma {:induction false} KindSplitPermutes(t: seq<Asset>)
    ensures multiset(NativeInfos(NativeDenoms(t)) + TokenInfos(TokenAddrs(t))) == multiset(Infos(t))
  {
    if t != [] {
      KindSplitPermutes(t[1..]);
      var n := NativeInfos(NativeDenoms(t[1..]));
      var k := TokenInfos(TokenAddrs(t[1..]));
      var x := t[0].info;
      assert Infos(t) == [x] + Infos(t[1..]);
      if x.NativeToken? {
        NativeInfosCons(x.denom, NativeDenoms(t[1..]));
        assert NativeDenoms(t) == [x.denom] + NativeDenoms(t[1..]);
        assert TokenAddrs(t) == TokenAddrs(t[1..]);
        ConsMultiset(x, n, k, Infos(t[1..]));
      } else {
        TokenInfosCons(x.contractAddr, TokenAddrs(t[1..]));
        assert TokenAddrs(t) == [x.contractAddr] + TokenAddrs(t[1..]);
        assert NativeDenoms(t) == NativeDenoms(t[1..]);
        ConsMultiset(x, n, k, Infos(t[1..]));
      }
    }
  }

  lemma {:induction false} NativeInfosCons(d: string, rest: seq<string>)
    ensures NativeInfos([d] + rest) == [NativeToken(d)] + NativeInfos(rest)
  {
    assert ([d] + rest)[1..] == rest;
  }

  lemma {:induction false} TokenInfosCons(d: string, rest: seq<string>)
    ensures TokenInfos([d] + rest) == [Token(d)] + TokenInfos(rest)
  {
    assert ([d] + rest)[1..] == rest;
  }

  lemma {:induction false} ConsMultiset(x: AssetInfo, a: seq<AssetInfo>, b: seq<AssetInfo>, rest: seq<AssetInfo>)
    requires multiset(a + b) == multiset(rest)
    ensures multiset(([x] + a) + b) == multiset([x] + rest)
    ensures multiset(a + ([x] + b)) == multiset([x] + rest)
  {
    assert ([x] + a) + b == [x] + (a + b);
  }

  function Sum(s: seq<nat>): nat {
    if s == [] then 0 else s[0] + Sum(s[1..])
  }

  /** The decimal rendering of a Uint128, as attribute values carry it. */
  function DecimalString(n: nat): string
    decreases n
  {
    if n < 10 then [Digit(n)] else DecimalString(n / 10) + [Digit(n % 10)]
  }

  function Digit(d: nat): char
    requires d < 10
  {
    "0123456789"[d]
  }
}
