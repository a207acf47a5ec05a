/** `TokenAmount`: an amount held both as integer base units (`Wei`) and as
    an exact decimal in whole coins (`Ether`), optionally also in billionths
    of a coin (`GWei`). */
module TokenAmounts {
  import opened Exceptions
  import opened Wrappers
  import opened Decimals
  import Text

  /** `gwei` is `None` when the attribute was never set (`set_gwei=False`). */
  datatype TokenAmount = TokenAmount(wei: int, ether: Dec, decimals: int, gwei: Option<int>)

  /** `TokenAmount(amount, decimals, wei, set_gwei)`.

      With `wei` the amount is in base units (`FromWei`); otherwise it is in
      coins (`FromCoins`). A negative `decimals` makes `10 ** decimals` a
      float, which a `Decimal` refuses to combine with: TypeError. */
  function New(amount: Dec, decimals: int, wei: bool, setGwei: bool): (r: Result<TokenAmount>)
    ensures r.Err? <==> decimals < 0
    ensures r.Err? ==> r.error == TypeError
    ensures r.Ok? ==> r.value.decimals == decimals
    ensures r.Ok? ==> (r.value.gwei.Some? <==> setGwei)
    ensures r.Ok? && wei ==>
      && IsTrunc(r.value.wei, amount.Value())
      && r.value.ether.Value() == amount.Value() / Pow10(decimals) as real
      && (setGwei ==> IsTrunc(r.value.gwei.value, amount.Value() / Pow10(9) as real))
    ensures r.Ok? && !wei ==>
      && r.value.ether == amount
      && IsTrunc(r.value.wei, amount.Value() * Pow10(decimals) as real)
      && (setGwei ==> IsTrunc(r.value.gwei.value, amount.Value() * Pow10(9) as real))
  {
    if decimals < 0 then Err(TypeError)
    else if wei then Ok(FromWei(amount, decimals, setGwei))
    else Ok(FromCoins(amount, decimals, setGwei))
  }

  /** An amount in base units: `Wei` is it truncated, `Ether` is it divided
      by `10**decimals`, `GWei` is it divided by `10**9`, truncated. */
  function FromWei(amount: Dec, decimals: nat, setGwei: bool): (t: TokenAmount)
    ensures t.decimals == decimals && (t.gwei.Some? <==> setGwei)
    ensures IsTrunc(t.wei, amount.Value())
    ensures t.ether.Value() == amount.Value() / Pow10(decimals) as real
    ensures setGwei ==> IsTrunc(t.gwei.value, amount.Value() / Pow10(9) as real)
  {
    var gwei := if setGwei then Some(TruncDiv(amount, 9)) else None;
    TokenAmount(Trunc(amount), ScaleDown(amount, decimals), decimals, gwei)
  }

  /** An amount in coins: `Ether` is it, `Wei` is it times `10**decimals`
      and `GWei` it times `10**9`, both truncated. */
  function FromCoins(amount: Dec, decimals: nat, setGwei: bool): (t: TokenAmount)
    ensures t.decimals == decimals && (t.gwei.Some? <==> setGwei)
    ensures t.ether == amount
    ensures IsTrunc(t.wei, amount.Value() * Pow10(decimals) as real)
    ensures setGwei ==> IsTrunc(t.gwei.value, amount.Value() * Pow10(9) as real)
  {
    var gwei := if setGwei then Some(TruncMul(amount, Pow10(9))) else None;
    TokenAmount(TruncMul(amount, Pow10(decimals)), amount, decimals, gwei)
  }

  /** The same constructor called with `decimals` read from a network
      descriptor, where it may still be `None`: `10 ** None` raises TypeError. */
  function NewOnNetwork(amount: Dec, decimals: Option<int>, wei: bool, setGwei: bool): (r: Result<TokenAmount>)
    ensures decimals.None? ==> r == Err(TypeError)
    ensures decimals.Some? ==> r == New(amount, decimals.value, wei, setGwei)
  {
    match decimals
    case None => Err(TypeError)
    case Some(d) => New(amount, d, wei, setGwei)
  }

  /** `str(amount)`: the base-unit amount in decimal. */
  function ToString(t: TokenAmount): (s: string)
    ensures Text.ParseInt(s) == Some(t.wei)
  {
    Text.IntStringRoundTrip(t.wei);
    Text.IntToString(t.wei)
  }

  /** Base units -> coins -> base units gives back the integer amount. */
  lemma WeiEtherRoundTrip(w: int, decimals: int)
    requires decimals >= 0
    ensures New(FromInt(w), decimals, true, false).Ok?
    ensures New(New(FromInt(w), decimals, true, false).value.ether, decimals, false, false).Ok?
    ensures New(New(FromInt(w), decimals, true, false).value.ether, decimals, false, false).value.wei == w
  {
    ScaleRoundTrip(w, decimals);
  }

  /** Without `wei`, the billionths do not depend on `decimals`. */
  lemma GweiIgnoresDecimals(amount: Dec, d1: int, d2: int)
    requires d1 >= 0 && d2 >= 0
    ensures New(amount, d1, false, true).value.gwei == New(amount, d2, false, true).value.gwei
  {
    CoinAmountGwei(amount, d1);
    CoinAmountGwei(amount, d2);
  }

  /** Billionths of a coin amount: the amount times 10^9, truncated. */
  function GweiOf(amount: Dec): (g: int)
    ensures IsTrunc(g, amount.Value() * Pow10(9) as real)
  {
    TruncMul(amount, Pow10(9))
  }

  /** A coin amount built with billionths carries `GweiOf` of the amount. */
  lemma CoinAmountGwei(amount: Dec, decimals: int)
    requires decimals >= 0
    ensures New(amount, decimals, false, true).Ok?
    ensures New(amount, decimals, false, true).value.gwei == Some(GweiOf(amount))
  {
    assert New(amount, decimals, false, true) == Ok(FromCoins(amount, decimals, true));
  }
}
