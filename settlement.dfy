/**
 * Deposit settlement shared by the drafts. The hacker's bounty is `rate * amount / scale`
 * rounded down, and what is left of the deposit is `amount - bounty`. The white-hat draft
 * uses percent (scale 100), the basis-point draft uses scale 10000. A deposit answers with
 * one batch of three messages, all addressed to the depositing cw20 contract.
 */
module Settlement {
  import opened Cosmos

  const PERCENT_SCALE: nat := 100
  const BPS_SCALE: nat := 10000

  /** The bounty: `rate/scale` of `amount`, rounded down; never more than the deposit while the rate is at most the scale. */
  function Bounty(rate: nat, amount: nat, scale: nat): (b: nat)
    requires scale > 0
    ensures rate <= scale ==> b <= amount
  {
    var b := rate * amount / scale;
    if rate <= scale then
      assert rate * amount == b * scale + rate * amount % scale;
      assert b * scale <= rate * amount <= scale * amount;
      BoundedByCancellation(b, amount, scale);
      b
    else
      b
  }

  /** The floor bounds: `bounty * scale <= rate * amount < (bounty + 1) * scale`. */
  lemma BountyBounds(rate: nat, amount: nat, scale: nat)
    requires scale > 0
    ensures Bounty(rate, amount, scale) * scale <= rate * amount < (Bounty(rate, amount, scale) + 1) * scale
  {
    var b := rate * amount / scale;
    assert rate * amount == b * scale + rate * amount % scale;
  }

  lemma BoundedByCancellation(x: nat, y: nat, k: nat)
    requires k > 0 && x * k <= k * y
    ensures x <= y
  {
  }

  /** What the deposit keeps after the bounty: `amount - bounty`. */
  function Remainder(rate: nat, amount: nat, scale: nat): (rest: nat)
    requires scale > 0 && rate <= scale
    ensures rest + Bounty(rate, amount, scale) == amount
  {
    amount - Bounty(rate, amount, scale)
  }

  /** The remainder is at least the `(scale - rate)/scale` share of the deposit. */
  lemma RemainderShare(rate: nat, amount: nat, scale: nat)
    requires scale > 0 && rate <= scale
    ensures Remainder(rate, amount, scale) * scale >= (scale - rate) * amount
  {
    var b := Bounty(rate, amount, scale);
    BountyBounds(rate, amount, scale);
    assert (scale - rate) * amount == scale * amount - rate * amount;
    assert (amount - b) * scale == amount * scale - b * scale;
  }

  /** The bounty is the unique rounding-down: any `b` that satisfies the floor bounds is it. */
  lemma {:induction false} BountyIsFloor(rate: nat, amount: nat, scale: nat, b: nat)
    requires scale > 0
    requires b * scale <= rate * amount < (b + 1) * scale
    ensures b == Bounty(rate, amount, scale)
  {
    var c := Bounty(rate, amount, scale);
    BountyBounds(rate, amount, scale);
    if b < c {
      assert (b + 1) * scale <= c * scale by { MultiplyMonotone(b + 1, c, scale); }
    } else if c < b {
      assert (c + 1) * scale <= b * scale by { MultiplyMonotone(c + 1, b, scale); }
    }
  }

  lemma MultiplyMonotone(x: nat, y: nat, k: nat)
    requires x <= y
    ensures x * k <= y * k
  {
    assert y * k == x * k + (y - x) * k;
  }

  /** A larger rate never gives a smaller bounty. */
  lemma {:induction false} BountyMonotoneInRate(r1: nat, r2: nat, amount: nat, scale: nat)
    requires scale > 0 && r1 <= r2
    ensures Bounty(r1, amount, scale) <= Bounty(r2, amount, scale)
  {
    var b1, b2 := Bounty(r1, amount, scale), Bounty(r2, amount, scale);
    BountyBounds(r1, amount, scale);
    BountyBounds(r2, amount, scale);
    MultiplyMonotone(r1, r2, amount);
    if b2 < b1 {
      MultiplyMonotone(b2 + 1, b1, scale);
    }
  }

  /** The rates at the two ends of the range: nothing, and the whole deposit. */
  lemma BountyAtBounds(amount: nat, scale: nat)
    requires scale > 0
    ensures Bounty(0, amount, scale) == 0
    ensures Bounty(scale, amount, scale) == amount
  {
    BountyIsFloor(0, amount, scale, 0);
    assert scale * amount == amount * scale;
    BountyIsFloor(scale, amount, scale, amount);
  }

  /** The amounts the white-hat integration test asserts for a 20% subscription. */
  lemma PercentExamples()
    ensures Bounty(20, 500_000, PERCENT_SCALE) == 100_000
    ensures Remainder(20, 500_000, PERCENT_SCALE) == 400_000
    ensures Bounty(20, 900_000, PERCENT_SCALE) == 180_000
    ensures Remainder(20, 900_000, PERCENT_SCALE) == 720_000
  {
    BountyIsFloor(20, 500_000, PERCENT_SCALE, 100_000);
    BountyIsFloor(20, 900_000, PERCENT_SCALE, 180_000);
  }

  /** A rate of `p` percent and one of `100 * p` basis points pay the same bounty on every deposit. */
  lemma PercentAsBasisPoints(p: nat, amount: nat)
    ensures Bounty(100 * p, amount, BPS_SCALE) == Bounty(p, amount, PERCENT_SCALE)
  {
    var b := Bounty(p, amount, PERCENT_SCALE);
    BountyBounds(p, amount, PERCENT_SCALE);
    assert b * BPS_SCALE == 100 * (b * PERCENT_SCALE);
    assert (b + 1) * BPS_SCALE == 100 * ((b + 1) * PERCENT_SCALE);
    assert 100 * p * amount == 100 * (p * amount);
    BountyIsFloor(100 * p, amount, BPS_SCALE, b);
  }

  /** 2000 basis points of 1,000,000 is 200,000, the same as 20 percent of it. */
  lemma BasisPointExample()
    ensures Bounty(2000, 1_000_000, BPS_SCALE) == 200_000
    ensures Bounty(2000, 1_000_000, BPS_SCALE) == Bounty(20, 1_000_000, PERCENT_SCALE)
  {
    BountyIsFloor(2000, 1_000_000, BPS_SCALE, 200_000);
    PercentAsBasisPoints(20, 1_000_000);
  }

  /**
   * The batch `deposit_cw20` emits, in order: the bounty to the hacker, the rest of the
   * deposit to this contract's own address, and a mint of token `numTokens + 1` to the hacker.
   * All three are addressed to the cw20 contract that made the deposit.
   */
  function DepositBatch(cw20: Addr, hacker: Addr, self: Addr, amount: u128, rate: nat, scale: nat, numTokens: nat)
    : (batch: seq<SubMsg>)
    requires 0 < scale && rate <= scale
    ensures |batch| == 3
    ensures forall i :: 0 <= i < |batch| ==>
              batch[i].replyOn == Never && batch[i].msg.WasmExecute? && batch[i].msg.contractAddr == cw20
    ensures batch[0].msg.payload == Cw20Transfer(hacker, Bounty(rate, amount, scale))
    ensures batch[1].msg.payload == Cw20Transfer(self, Remainder(rate, amount, scale))
    ensures batch[0].msg.payload.amount + batch[1].msg.payload.amount == amount
    ensures batch[2].msg.payload == Cw721Mint(Decimal(numTokens + 1), hacker)
  {
    var bounty := Bounty(rate, amount, scale);
    [ Message(WasmExecute(cw20, Cw20Transfer(hacker, bounty))),
      Message(WasmExecute(cw20, Cw20Transfer(self, amount - bounty))),
      Message(WasmExecute(cw20, Cw721Mint(Decimal(numTokens + 1), hacker))) ]
  }

  /** Two deposits seen with different token counts mint different token ids. */
  lemma DistinctMints(cw20: Addr, hacker: Addr, self: Addr, amount: u128, rate: nat, scale: nat, n1: nat, n2: nat)
    requires 0 < scale && rate <= scale && n1 != n2
    ensures DepositBatch(cw20, hacker, self, amount, rate, scale, n1)[2].msg.payload.tokenId
         != DepositBatch(cw20, hacker, self, amount, rate, scale, n2)[2].msg.payload.tokenId
  {
    var m1 := DepositBatch(cw20, hacker, self, amount, rate, scale, n1)[2].msg.payload;
    var m2 := DepositBatch(cw20, hacker, self, amount, rate, scale, n2)[2].msg.payload;
    assert m1.tokenId == Decimal(n1 + 1) && m2.tokenId == Decimal(n2 + 1);
    if m1.tokenId == m2.tokenId {
      DecimalInjective(n1 + 1, n2 + 1);
    }
  }
}
