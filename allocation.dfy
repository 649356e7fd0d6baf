/** The allocator: the total target weight and each component's share of the
    contract's `uusd` balance, `floor(U * w / W)`, both in checked Uint128
    arithmetic.  The live mint and the preview compute shares with the same
    `MulDiv`; `Allocate` is the whole plan both follow. */
module Allocation {
  import opened Uint128
  import opened Assets

  /** `target.iter().map(|x| x.amount).sum()` continued from `acc`: a left
      fold of checked additions, which aborts exactly when the true sum does
      not fit in 128 bits. */
  function TotalWeightFrom(acc: u128, t: seq<Asset>): (r: Result<u128>)
    ensures r.Ok? <==> acc + SumAmounts(t) <= MAX_U128
    ensures r.Ok? ==> r.value == acc + SumAmounts(t)
    ensures r.Err? ==> r.error == Overflow
    decreases |t|
  {
    if t == [] then Ok(acc)
    else
      match CheckedAdd(acc, t[0].amount)
      case Err(e) => Err(e)
      case Ok(s) => TotalWeightFrom(s, t[1..])
  }

  /** The total target weight W. */
  function TotalWeight(t: seq<Asset>): Result<u128> {
    TotalWeightFrom(0, t)
  }

  /** The allocation plan: each component's share `U * w / W`, failing at the
      first component whose share cannot be computed. */
  function Allocate(u: u128, total: u128, t: seq<Asset>): (r: Result<seq<u128>>)
    ensures r.Ok? ==> |r.value| == |t|
    decreases |t|
  {
    if t == [] then Ok([])
    else
      var r :- MulDiv(u, t[0].amount, total);
      var rest :- Allocate(u, total, t[1..]);
      Ok([r] + rest)
  }

  /** A plan exists exactly when there is nothing to share or W is positive
      and no product `U * w` overflows; then it has one share per component,
      each the floor of `U * w / W`. */
  lemma {:induction false} AllocateShares(u: u128, total: u128, t: seq<Asset>)
    ensures Allocate(u, total, t).Ok? <==>
      t == [] || (total > 0 && forall i :: 0 <= i < |t| ==> u * t[i].amount <= MAX_U128)
    ensures Allocate(u, total, t).Ok? ==>
      var p := Allocate(u, total, t).value;
      && |p| == |t|
      && forall i :: 0 <= i < |t| ==> p[i] * total <= u * t[i].amount < (p[i] + 1) * total
  {
    if t != [] {
      AllocateShares(u, total, t[1..]);
      if Allocate(u, total, t).Ok? {
        var p := Allocate(u, total, t).value;
        forall i | 0 <= i < |t|
          ensures p[i] * total <= u * t[i].amount < (p[i] + 1) * total
        {
          if i > 0 {
            assert p[i] == Allocate(u, total, t[1..]).value[i - 1];
            assert t[i] == t[1..][i - 1];
          }
        }
      }
      if total > 0 && forall i :: 0 <= i < |t| ==> u * t[i].amount <= MAX_U128 {
        assert forall i :: 0 <= i < |t[1..]| ==> u * t[1..][i].amount <= MAX_U128 by {
          forall i | 0 <= i < |t[1..]| ensures u * t[1..][i].amount <= MAX_U128 {
            assert t[1..][i] == t[i + 1];
          }
        }
        assert u * t[0].amount <= MAX_U128;
      }
    }
  }

  /** The sum of what integer division throws away, component by component. */
  function SumRemainders(u: u128, total: u128, t: seq<Asset>): nat
    requires total > 0
  {
    if t == [] then 0 else (u * t[0].amount) % total + SumRemainders(u, total, t[1..])
  }

  /** Shares times W plus the discarded remainders make up `U * ΣW` exactly. */
  lemma {:induction false} SharesAndRemainders(u: u128, total: u128, t: seq<Asset>, p: seq<u128>)
    requires total > 0 && Allocate(u, total, t) == Ok(p)
    ensures Sum(p) * total + SumRemainders(u, total, t) == u * SumAmounts(t)
    ensures SumRemainders(u, total, t) <= |t| * (total - 1)
  {
    if t != [] {
      var w := t[0].amount;
      var uw: nat := u * w;
      AllocateCons(u, total, t, p);
      var p0 := p[0];
      var rest := p[1..];
      assert p0 == uw / total;
      assert p == [p0] + rest;
      SharesAndRemainders(u, total, t[1..], rest);
      var m := uw % total;
      DivMod(uw, total);
      StepArith(u, w, SumAmounts(t[1..]), total, p0, m, Sum(rest), SumRemainders(u, total, t[1..]), |t[1..]|);
      assert Sum(p) == p0 + Sum(rest);
    }
  }

  /** The arithmetic of one step of `SharesAndRemainders`. */
  lemma {:induction false} StepArith(u: nat, w: nat, st: nat, total: nat, p0: nat, m: nat, sr: nat, rr: nat, n: nat)
    requires total > 0 && u * w == p0 * total + m && m <= total - 1
    requires sr * total + rr == u * st && rr <= n * (total - 1)
    ensures (p0 + sr) * total + (m + rr) == u * (w + st)
    ensures m + rr <= (n + 1) * (total - 1)
  {
    MulAddDistrib(p0, sr, total);
    MulAddDistrib(w, st, u);
    assert u * (w + st) == (w + st) * u && u * w == w * u && u * st == st * u;
    MulAddDistrib(n, 1, total - 1);
  }

  /** A plan for a non-empty list is the first share followed by the rest's plan. */
  lemma {:induction false} AllocateCons(u: u128, total: u128, t: seq<Asset>, p: seq<u128>)
    requires t != [] && Allocate(u, total, t) == Ok(p)
    ensures |p| >= 1 && MulDiv(u, t[0].amount, total) == Ok(p[0])
    ensures Allocate(u, total, t[1..]) == Ok(p[1..])
  {}

  lemma {:induction false} DivMod(p: nat, d: nat)
    requires d > 0
    ensures p == (p / d) * d + p % d && p % d < d
  {}

  lemma {:induction false} MulAddDistrib(a: nat, b: nat, c: nat)
    ensures (a + b) * c == a * c + b * c
  {}

  /** With W the true weight sum, the shares never exceed the balance U, the
      shortfall times W is exactly the discarded remainders, and fewer than
      one unit per component is lost. */
  lemma {:induction false} AllocationWithinBalance(u: u128, t: seq<Asset>, p: seq<u128>)
    requires SumAmounts(t) > 0 && SumAmounts(t) <= MAX_U128
    requires Allocate(u, SumAmounts(t), t) == Ok(p)
    ensures Sum(p) <= u
    ensures (u - Sum(p)) * SumAmounts(t) == SumRemainders(u, SumAmounts(t), t)
    ensures u - Sum(p) < |t|
  {
    SharesAndRemainders(u, SumAmounts(t), t, p);
    WithinArith(u, Sum(p), SumAmounts(t), SumRemainders(u, SumAmounts(t), t), |t|);
  }

  /** The arithmetic of `AllocationWithinBalance`: `s * W + rem == u * W`
      with `rem` below `n * W` puts `s` less than `n` units under `u`. */
  lemma {:induction false} WithinArith(u: nat, s: nat, total: nat, rem: nat, n: nat)
    requires total > 0 && n > 0 && s * total + rem == u * total && rem <= n * (total - 1)
    ensures s <= u && (u - s) * total == rem && u - s < n
  {
    assert s <= u by {
      MulAddDistrib(u, 1, total);
      if s > u {
        MulMono(u + 1, s, total);
      }
    }
    MulAddDistrib(u - s, s, total);
    assert n * (total - 1) < n * total by { MulStrict(n, total - 1, total); }
    if u - s >= n {
      MulMono(n, u - s, total);
    }
  }
}
