/**
 * The player's own games page: the supported-token registry, the lookup of a
 * token's name from its contract address, and the shortened display of an address.
 */
module MyGame {
  import opened JsValues

  /** One entry of the token registry: its symbolic name and its contract address. */
  datatype Token = Token(key: string, address: string)

  /** The supported tokens, in declaration order (the order `Object.keys` yields). */
  const Registry: seq<Token> := [
    Token("STABLEAI", "0x07F41412697D14981e770b6E335051b1231A2bA8"),
    Token("DIG", "0x208561379990f106E6cD59dDc14dFB1F290016aF"),
    Token("WEB9", "0x09CA293757C6ce06df17B96fbcD9c5f767f4b2E1"),
    Token("BNKR", "0x22aF33FE49fD1Fa80c7149773dDe5890D3c76F3b"),
    Token("FED", "0x19975a01B71D4674325bd315E278710bc36D8e5f"),
    Token("RaTcHeT", "0x1d35741c51fb615ca70e28d3321f6f01e8d8a12d"),
    Token("GIRTH", "0xa97d71a5fdf906034d9d121ed389665427917ee4")
  ]

  /** What the lookup answers for an address that no registry entry has. */
  const UnknownToken: string := "Unknown Token"

  ghost predicate AddressesDistinct(reg: seq<Token>)
  {
    forall i, j :: 0 <= i < j < |reg| ==> reg[i].address != reg[j].address
  }

  /** The index of the first entry whose address is exactly `a` (case-sensitive), if any. */
  function FirstMatch(reg: seq<Token>, a: string): (r: Option<nat>)
    ensures r.Some? ==> r.value < |reg| && reg[r.value].address == a
    ensures r.Some? ==> forall j :: 0 <= j < r.value ==> reg[j].address != a
    ensures r.None? <==> forall i :: 0 <= i < |reg| ==> reg[i].address != a
  {
    if reg == [] then None
    else if reg[0].address == a then Some(0)
    else match FirstMatch(reg[1..], a)
      case None => None
      case Some(i) => Some(i + 1)
  }

  /**
   * `getTokenName`: the name of the first registry entry whose address equals `a`,
   * or the sentinel when none does. It never fails.
   */
  function TokenName(a: string): (r: string)
    ensures r == UnknownToken || exists i :: 0 <= i < |Registry| && Registry[i].key == r
  {
    match FirstMatch(Registry, a)
    case Some(i) => Registry[i].key
    case None => UnknownToken
  }

  /** The sentinel is told apart from every registered name. */
  lemma UnknownTokenIsNoKey()
    ensures forall i :: 0 <= i < |Registry| ==> Registry[i].key != UnknownToken
  {
    forall i | 0 <= i < |Registry| ensures Registry[i].key != UnknownToken {
      assert |Registry[i].key| < |UnknownToken|;
    }
  }

  /** The name answered is the key of the first entry with that address. */
  lemma TokenNameIsFirstMatch(a: string, i: nat)
    requires i < |Registry| && Registry[i].address == a
    requires forall j :: 0 <= j < i ==> Registry[j].address != a
    ensures TokenName(a) == Registry[i].key
  {
  }

  /** The sentinel is answered exactly for the addresses that no entry has. */
  lemma TokenNameUnknownIffUnregistered(a: string)
    ensures TokenName(a) == UnknownToken <==> forall i :: 0 <= i < |Registry| ==> Registry[i].address != a
  {
    UnknownTokenIsNoKey();
  }

  lemma RegistryAddressesDistinct()
    ensures AddressesDistinct(Registry)
  {
  }

  /** Looking up a registered address gives back its own name. */
  lemma TokenNameOfRegistered(i: nat)
    requires i < |Registry|
    ensures TokenName(Registry[i].address) == Registry[i].key
  {
    RegistryAddressesDistinct();
    TokenNameIsFirstMatch(Registry[i].address, i);
  }

  /**
   * `formatAddress`: the first four characters, "...", then the last four
   * (`slice(0, 4)` and `slice(-4)`, both clamped to the string).
   */
  function FormatAddress(s: string): (r: string)
    ensures r == s[..if |s| < 4 then |s| else 4] + "..." + s[if |s| < 4 then 0 else |s| - 4..]
    ensures |s| >= 8 ==> |r| == 11
    ensures |s| < 4 ==> r == s + "..." + s
  {
    Slice(s, 0, 4) + "..." + SliceFrom(s, -4)
  }
}
