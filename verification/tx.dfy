/** `Tx`: the handle of a sent transaction: its hash, the parameters it was
    sent with, and later its receipt. */
module TxHandle {
  import opened Exceptions
  import opened Wrappers
  import opened Text
  import opened Values

  /** The `tx_hash` argument: absent, hexadecimal text, or raw bytes. */
  datatype HashArg = NoHash | HashText(s: string) | HashBytes(b: seq<byte>)

  predicate HashTruthy(h: HashArg) {
    match h
    case NoHash => false
    case HashText(s) => |s| > 0
    case HashBytes(b) => |b| > 0
  }

  predicate ParamsTruthy(p: Option<Params>) {
    p.Some? && p.value != map[]
  }

  /** A receipt as the plain dictionary the library stores. */
  type Receipt = Params

  datatype Tx = Tx(
    hash: Option<seq<byte>>,
    params: Option<Params>,
    receipt: Option<Receipt>,
    functionIdentifier: Option<string>,
    inputData: Option<Params>)

  /** `Tx(tx_hash, params)`: at least one of the two must be truthy; text is
      converted to bytes (invalid hexadecimal raises ValueError), bytes are
      stored as given; everything else starts empty. */
  function New(hash: HashArg, params: Option<Params>): (r: Result<Tx>)
    ensures r == Err(TransactionException) <==> !HashTruthy(hash) && !ParamsTruthy(params)
    ensures r.Err? && (HashTruthy(hash) || ParamsTruthy(params)) ==>
      r.error == ValueError && hash.HashText? && FromHex(hash.s).None?
    ensures r.Ok? ==>
      && r.value.params == params
      && r.value.receipt.None? && r.value.functionIdentifier.None? && r.value.inputData.None?
      && (hash.NoHash? ==> r.value.hash.None?)
      && (hash.HashBytes? ==> r.value.hash == Some(hash.b))
      && (hash.HashText? ==> r.value.hash == FromHex(hash.s))
  {
    if !HashTruthy(hash) && !ParamsTruthy(params) then Err(TransactionException)
    else
      var stored :- match hash
        case NoHash => Ok(None)
        case HashBytes(b) => Ok(Some(b))
        case HashText(s) =>
          match FromHex(s)
          case Some(b) => Ok(Some(b))
          case None => Err(ValueError);
      Ok(Tx(stored, params, None, None, None))
  }

  /** The hash text a node reports, with or without `0x`, yields the same
      handle as the raw bytes. */
  lemma TextHashMatchesBytes(b: seq<byte>, params: Option<Params>)
    requires |b| > 0
    ensures New(HashText(ToHex(b)), params) == New(HashBytes(b), params)
    ensures New(HashText("0x" + ToHex(b)), params) == New(HashBytes(b), params)
  {
    HexRoundTrip(b);
    PrefixedHexRoundTrip(b);
    assert |ToHex(b)| > 0;
    HashStored(HashText(ToHex(b)), b, params);
    HashStored(HashText("0x" + ToHex(b)), b, params);
    HashStored(HashBytes(b), b, params);
  }

  /** A truthy hash that converts to `b` gives the handle holding `b`. */
  lemma HashStored(h: HashArg, b: seq<byte>, params: Option<Params>)
    requires HashTruthy(h)
    requires (h.HashText? && FromHex(h.s) == Some(b)) || h == HashBytes(b)
    ensures New(h, params) == Ok(Tx(Some(b), params, None, None, None))
  {
  }

  /** `wait_for_tx_receipt`: the node's answer for this hash is stored and
      returned; a failure (e.g. a timeout) propagates. */
  function WaitForReceipt(tx: Tx, answer: Result<Receipt>): (r: Result<(Tx, Receipt)>)
    ensures answer.Err? ==> r == Err(answer.error)
    ensures r.Ok? ==> answer == Ok(r.value.1) && r.value.0.receipt == Some(r.value.1)
    ensures r.Ok? ==> r.value.0 == tx.(receipt := r.value.0.receipt)
  {
    var receipt :- answer;
    Ok((tx.(receipt := Some(receipt)), receipt))
  }
}
