/**
 * The host-framework values the contract touches, reduced to what the
 * contract can observe of them.
 */
module CosmWasm {
  import opened Wrappers
  import Decimal

  /** A validated account address; the framework keeps it as its string form. */
  datatype Addr = Addr(text: string)

  /**
   * The host's API. Address validation is a call into the host whose rules the
   * contract never sees, so it is an arbitrary function supplied by the caller:
   * nothing here assumes it normalises, or returns, its input.
   */
  datatype Api = Api(addrValidate: string -> Option<Addr>)

  /** The authenticated facts about one invocation that the contract reads. */
  datatype MessageInfo = MessageInfo(sender: Addr)

  /** One (key, value) attribute of a response, in the order it was added. */
  datatype Attribute = Attribute(key: string, value: string)

  type Response = seq<Attribute>

  newtype Uint128 = x: int | 0 <= x < 0x1_0000_0000_0000_0000_0000_0000_0000_0000

  newtype I32 = x: int | -0x8000_0000 <= x < 0x8000_0000

  newtype U32 = x: int | 0 <= x < 0x1_0000_0000

  /** A denomination unit of a coin: its name, its decimal exponent and its aliases. */
  datatype DenomUnit = DenomUnit(denom: string, exponent: U32, aliases: seq<string>)

  /**
   * An optional `Uint128` as both handlers render it into an attribute: the
   * number's decimal `Display`, or the word "None" when it is absent.
   */
  function OptionalUint128ToString(amount: Option<Uint128>): (r: string)
    ensures amount.None? ==> r == "None"
    ensures amount.Some? ==> Decimal.Parse(r) == Some(amount.value as nat)
  {
    match amount
    case Some(n) =>
      Decimal.ParseIffShow(Decimal.Show(n as nat), n as nat);
      Decimal.Show(n as nat)
    case None => "None"
  }

  /** The rendering loses nothing: the attribute value determines the option. */
  lemma OptionalUint128ToStringInjective(a: Option<Uint128>, b: Option<Uint128>)
    requires OptionalUint128ToString(a) == OptionalUint128ToString(b)
    ensures a == b
  {
    if a.Some? {
      Decimal.ShowIsCanonical(a.value as nat);
    }
    if b.Some? {
      Decimal.ShowIsCanonical(b.value as nat);
    }
    if a.Some? && b.Some? {
      Decimal.ShowInjective(a.value as nat, b.value as nat);
    }
  }
}
