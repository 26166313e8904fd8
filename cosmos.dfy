/**
 * The slice of the CosmWasm host the three contract drafts touch: fixed-width integers,
 * addresses, the order storage keys are visited in, decimal rendering (`to_string`),
 * and the values a handler returns (attributes, messages, sub-messages, replies).
 */
module Cosmos {
  import opened Wrappers
  import Ordering

  const U16_MAX: int := 0xFFFF
  const U64_MAX: int := 0xFFFF_FFFF_FFFF_FFFF
  const U128_MAX: int := 0xFFFF_FFFF_FFFF_FFFF_FFFF_FFFF_FFFF_FFFF

  type u16 = x: int | 0 <= x <= U16_MAX
  type u64 = x: int | 0 <= x <= U64_MAX
  /** Both the primitive `u128` and `Uint128`. */
  type u128 = x: int | 0 <= x <= U128_MAX

  /** An account or contract address; `Addr::unchecked("")` is the "not yet known" sentinel. */
  type Addr = string

  const EMPTY_ADDR: Addr := ""

  /** Byte-wise lexicographic order, the order in which a `Map<Addr, _>` is ranged. */
  predicate AddrLess(a: Addr, b: Addr)
  {
    if |a| == 0 then |b| > 0
    else if |b| == 0 then false
    else a[0] < b[0] || (a[0] == b[0] && AddrLess(a[1..], b[1..]))
  }

  lemma {:induction false} AddrLessIrreflexive(a: Addr)
    ensures !AddrLess(a, a)
  {
    if |a| > 0 {
      AddrLessIrreflexive(a[1..]);
    }
  }

  lemma {:induction false} AddrLessTransitive(a: Addr, b: Addr, c: Addr)
    requires AddrLess(a, b) && AddrLess(b, c)
    ensures AddrLess(a, c)
  {
    if |a| > 0 && a[0] == b[0] && b[0] == c[0] {
      AddrLessTransitive(a[1..], b[1..], c[1..]);
    }
  }

  lemma {:induction false} AddrLessConnected(a: Addr, b: Addr)
    requires a != b
    ensures AddrLess(a, b) || AddrLess(b, a)
  {
    if |a| > 0 && |b| > 0 && a[0] == b[0] {
      assert a == [a[0]] + a[1..] && b == [b[0]] + b[1..];
      AddrLessConnected(a[1..], b[1..]);
    }
  }

  lemma AddrLessIsStrictTotalOrder()
    ensures Ordering.StrictTotalOrder(AddrLess)
  {
    forall a ensures !AddrLess(a, a) {
      AddrLessIrreflexive(a);
    }
    forall a, b, c | AddrLess(a, b) && AddrLess(b, c) ensures AddrLess(a, c) {
      AddrLessTransitive(a, b, c);
    }
    forall a, b | a != b ensures AddrLess(a, b) || AddrLess(b, a) {
      AddrLessConnected(a, b);
    }
  }

  function DigitChar(d: nat): (c: char)
    requires d < 10
    ensures '0' <= c <= '9'
  {
    (48 + d) as char
  }

  /** `n.to_string()`: the decimal digits of `n`, most significant first, no leading zeros. */
  function Decimal(n: nat): (s: string)
    ensures |s| >= 1
    ensures forall i :: 0 <= i < |s| ==> '0' <= s[i] <= '9'
    ensures |s| == 1 <==> n < 10
    ensures s[|s| - 1] == DigitChar(n % 10)
    ensures s[0] == '0' ==> n == 0
  {
    if n < 10 then [DigitChar(n)] else Decimal(n / 10) + [DigitChar(n % 10)]
  }

  /** The number a string of decimal digits spells, most significant digit first (`str::parse::<u128>` on digits). */
  function DigitsValue(s: string): nat
    requires forall i :: 0 <= i < |s| ==> '0' <= s[i] <= '9'
  {
    if s == [] then 0 else 10 * DigitsValue(s[..|s| - 1]) + (s[|s| - 1] as int - 48)
  }

  /** `to_string` spells its number: parsing the decimal rendering of `n` gives back `n`. */
  lemma {:induction false} DecimalRoundTrip(n: nat)
    ensures DigitsValue(Decimal(n)) == n
  {
    var s := Decimal(n);
    if n >= 10 {
      assert s[..|s| - 1] == Decimal(n / 10);
      DecimalRoundTrip(n / 10);
    }
  }

  /** Distinct numbers render as distinct strings, so distinct token counts give distinct token ids. */
  lemma {:induction false} DecimalInjective(a: nat, b: nat)
    requires Decimal(a) == Decimal(b)
    ensures a == b
  {
    var s, t := Decimal(a), Decimal(b);
    assert s[|s| - 1] == t[|t| - 1];
    DigitCharInjective(a % 10, b % 10);
    if a >= 10 {
      assert |t| == |s| > 1;
      assert b >= 10;
      assert Decimal(a / 10) == s[..|s| - 1] == t[..|t| - 1] == Decimal(b / 10);
      DecimalInjective(a / 10, b / 10);
      SameQuotientAndRemainder(a, b);
    } else {
      assert |t| == |s| == 1;
    }
  }

  lemma DigitCharInjective(d: nat, e: nat)
    requires d < 10 && e < 10 && DigitChar(d) == DigitChar(e)
    ensures d == e
  {
  }

  lemma SameQuotientAndRemainder(a: nat, b: nat)
    requires a / 10 == b / 10 && a % 10 == b % 10
    ensures a == b
  {
    assert a == 10 * (a / 10) + a % 10;
    assert b == 10 * (b / 10) + b % 10;
  }

  datatype Env = Env(contractAddress: Addr)

  datatype MessageInfo = MessageInfo(sender: Addr)

  datatype Attribute = Attribute(key: string, value: string)

  datatype StdError = NotFound(kind: string) | GenericErr(msg: string)

  /** The body of a `WasmMsg::Execute`: a cw20 transfer or a cw721 mint (no token URI, no extension). */
  datatype ExecutePayload =
    | Cw20Transfer(recipient: Addr, amount: u128)
    | Cw721Mint(tokenId: string, owner: Addr)

  /** `cw721_base::msg::InstantiateMsg` */
  datatype Cw721InstantiateMsg = Cw721InstantiateMsg(name: string, symbol: string, minter: Addr)

  /** A `CosmosMsg::Wasm` message; every one the drafts build carries no funds. */
  datatype CosmosMsg =
    | WasmExecute(contractAddr: Addr, payload: ExecutePayload)
    | WasmInstantiate(admin: Option<string>, codeId: u64, init: Cw721InstantiateMsg, contractLabel: string)

  datatype ReplyOn = Never | OnSuccess

  datatype SubMsg = SubMsg(id: u64, msg: CosmosMsg, replyOn: ReplyOn)

  /** `Response::add_message(msg)` wraps `msg` as `SubMsg::new(msg)`: id 0, no reply. */
  function Message(msg: CosmosMsg): (s: SubMsg)
    ensures s.msg == msg && s.replyOn == Never
  {
    SubMsg(0, msg, Never)
  }

  datatype Response = Response(attributes: seq<Attribute>, messages: seq<SubMsg>)

  /**
   * A reply to a sub-message. `instantiated` is what `parse_reply_instantiate_data`
   * extracts from it: the new contract's address, or None when the data does not parse.
   */
  datatype Reply = Reply(id: u64, instantiated: Option<Addr>)

  /** `Cw20ReceiveMsg`: who sent the tokens, how many, and the hook payload (None when it does not decode). */
  datatype Cw20ReceiveMsg<H> = Cw20ReceiveMsg(sender: Addr, amount: u128, msg: Option<H>)
}
