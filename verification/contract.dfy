/** `Contract`: resolution of a contract reference to an address and ABI,
    and the single-key setters on a transaction-parameter dictionary. The
    EIP-55 checksum is a given function, since it needs Keccak-256. */
module Contracts {
  import opened Exceptions
  import opened Wrappers
  import opened Decimals
  import opened Values
  import opened TokenAmounts

  /** An ABI as the library receives it: absent, a parsed list of entries,
      or JSON text. */
  datatype Abi = NoAbi | AbiList(entries: seq<string>) | AbiText(text: string)

  predicate AbiTruthy(a: Abi) {
    match a
    case NoAbi => false
    case AbiList(e) => |e| > 0
    case AbiText(t) => |t| > 0
  }

  /** A contract reference: a bare address, or an object (raw or web3
      contract) carrying an address and an ABI. */
  datatype ContractRef = AddressRef(address: string) | ContractObj(address: string, abi: Abi)

  /** The checksum function; it rejects strings that are not addresses. */
  type Checksum = string -> Result<string>

  /** `get_contract_attributes`: a bare address comes with no ABI; an object
      gives its own address and ABI. The address is checksummed. */
  function GetContractAttributes(c: ContractRef, checksum: Checksum): (r: Result<(string, Abi)>)
    ensures checksum(c.address).Err? ==> r.Err?
    ensures checksum(c.address).Ok? ==> r.Ok? && r.value.0 == checksum(c.address).value
    ensures r.Ok? && c.AddressRef? ==> r.value.1 == NoAbi
    ensures r.Ok? && c.ContractObj? ==> r.value.1 == c.abi
  {
    var address :- checksum(c.address);
    match c
    case AddressRef(_) => Ok((address, NoAbi))
    case ContractObj(_, abi) => Ok((address, abi))
  }

  /** An object without an ABI gives what its bare address gives, and the
      address part never depends on the ABI. */
  lemma AttributesOfAddressAndObject(address: string, abi: Abi, checksum: Checksum)
    ensures GetContractAttributes(ContractObj(address, NoAbi), checksum) == GetContractAttributes(AddressRef(address), checksum)
    ensures GetContractAttributes(ContractObj(address, abi), checksum).Ok? <==> GetContractAttributes(AddressRef(address), checksum).Ok?
    ensures GetContractAttributes(ContractObj(address, abi), checksum).Ok? ==>
      GetContractAttributes(ContractObj(address, abi), checksum).value.0 == GetContractAttributes(AddressRef(address), checksum).value.0
  {
  }

  /** The contract object `get` builds, by its address and ABI. */
  datatype ContractHandle = ContractHandle(address: string, abi: Abi)

  /** `get(contract, abi)`: an explicit truthy ABI wins, else the
      reference's own; with neither, ValueError. */
  function Get(c: ContractRef, abi: Abi, checksum: Checksum): (r: Result<ContractHandle>)
    ensures checksum(c.address).Ok? ==>
      var own := if c.ContractObj? then c.abi else NoAbi;
      && (r.Err? <==> !AbiTruthy(abi) && !AbiTruthy(own))
      && (r.Err? ==> r.error == ValueError)
      && (r.Ok? ==> r.value.address == checksum(c.address).value)
      && (r.Ok? && AbiTruthy(abi) ==> r.value.abi == abi)
      && (r.Ok? && !AbiTruthy(abi) ==> r.value.abi == own)
    ensures checksum(c.address).Err? ==> r.Err?
  {
    var (address, own) :- GetContractAttributes(c, checksum);
    if !AbiTruthy(abi) && !AbiTruthy(own) then Err(ValueError)
    else Ok(ContractHandle(address, if AbiTruthy(abi) then abi else own))
  }

  /** `add_multiplier_of_gas`: the given value, even `None`, is written
      under `multiplier`, and nothing else changes. */
  function AddMultiplierOfGas(p: Params, multiplier: Value): (q: Params)
    ensures "multiplier" in q && q["multiplier"] == multiplier
    ensures AgreeOutside(p, q, {"multiplier"})
    ensures q.Keys == p.Keys + {"multiplier"}
  {
    p["multiplier" := multiplier]
  }

  /** A gas-price argument: a number of gwei (int or float), or an amount. */
  datatype GasPrice = PriceNumber(gwei: Dec) | PriceAmount(amount: TokenAmount)

  /** `set_gas_price`: a number is wrapped as a coin amount with billionths
      (so `gasPrice` becomes the number times 10^9, truncated); an amount
      gives its billionths, which fail with AttributeError when it was built
      without them. */
  function SetGasPrice(price: GasPrice, p: Params, decimals: Option<int>): (r: Result<Params>)
    ensures price.PriceNumber? && decimals.Some? && decimals.value >= 0 ==>
      r == Ok(p["gasPrice" := Int(GweiOf(price.gwei))])
    ensures price.PriceNumber? && !(decimals.Some? && decimals.value >= 0) ==> r == Err(TypeError)
    ensures price.PriceAmount? && price.amount.gwei.None? ==> r == Err(AttributeError)
    ensures price.PriceAmount? && price.amount.gwei.Some? ==>
      r == Ok(p["gasPrice" := Int(price.amount.gwei.value)])
  {
    match price
    case PriceNumber(x) =>
      if decimals.Some? && decimals.value >= 0 then
        CoinAmountGwei(x, decimals.value);
        var amount := New(x, decimals.value, false, true).value;
        Ok(p["gasPrice" := Int(amount.gwei.value)])
      else Err(TypeError)
    case PriceAmount(t) =>
      match t.gwei
      case None => Err(AttributeError)
      case Some(g) => Ok(p["gasPrice" := Int(g)])
  }

  /** A gas-limit argument: an integer, or an amount. */
  datatype GasLimit = LimitInt(units: int) | LimitAmount(amount: TokenAmount)

  /** `set_gas_limit`: `gas` becomes the integer itself (wrapped in base
      units, which needs usable decimals) or the amount's base units. */
  function SetGasLimit(limit: GasLimit, p: Params, decimals: Option<int>): (r: Result<Params>)
    ensures limit.LimitInt? && decimals.Some? && decimals.value >= 0 ==>
      r == Ok(p["gas" := Int(limit.units)])
    ensures limit.LimitInt? && !(decimals.Some? && decimals.value >= 0) ==> r == Err(TypeError)
    ensures limit.LimitAmount? ==> r == Ok(p["gas" := Int(limit.amount.wei)])
  {
    var amount :- match limit
      case LimitInt(n) => NewOnNetwork(FromInt(n), decimals, true, false)
      case LimitAmount(t) => Ok(t);
    if limit.LimitInt? then TruncOfInteger(FromInt(limit.units), limit.units); Ok(p["gas" := Int(amount.wei)])
    else Ok(p["gas" := Int(amount.wei)])
  }

  /** Setting the gas price from a number or from the amount built from
      that number with billionths gives the same dictionary. */
  lemma SetGasPriceNumberMatchesAmount(x: Dec, p: Params, decimals: int)
    requires decimals >= 0
    ensures SetGasPrice(PriceNumber(x), p, Some(decimals))
         == SetGasPrice(PriceAmount(New(x, decimals, false, true).value), p, Some(decimals))
  {
    CoinAmountGwei(x, decimals);
  }

  /** A limit given as an integer and one given as the base-unit amount of
      that integer set the same `gas`. */
  lemma SetGasLimitIntMatchesAmount(n: int, p: Params, decimals: int)
    requires decimals >= 0
    ensures SetGasLimit(LimitInt(n), p, Some(decimals))
         == SetGasLimit(LimitAmount(New(FromInt(n), decimals, true, false).value), p, Some(decimals))
  {
    TruncOfInteger(FromInt(n), n);
  }
}
