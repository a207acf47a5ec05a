/** `Transaction`: completion of a transaction-parameter dictionary before
    signing, the median priority-fee selector, and signing and sending. Every
    node query is an answer passed in through `Node`. */
module Transactions {
  import opened Exceptions
  import opened Wrappers
  import opened Decimals
  import opened Text
  import opened Values
  import opened Sorting
  import opened TokenAmounts
  import opened NetworkDescriptor
  import opened TxHandle

  /** The node's answers: the transaction count of an address, the current
      gas price, the suggested priority fee and the gas estimate for a
      parameter dictionary. */
  datatype Node = Node(
    nonceOf: string -> Result<int>,
    gasPrice: Result<int>,
    maxPriorityFee: Result<int>,
    estimateGas: Params -> Result<int>)

  /** The keys completion may add, replace or remove. */
  const Managed: set<string> :=
    {"chainId", "nonce", "from", "gasPrice", "maxFeePerGas", "maxPriorityFeePerGas", "multiplier", "gas"}

  /** `get_nonce(address)`: a falsy address falls back to the signer's. */
  function GetNonce(address: Value, signer: string, node: Node): (r: Result<int>)
    ensures Truthy(address) && address.Str? ==> r == node.nonceOf(address.s)
    ensures !Truthy(address) ==> r == node.nonceOf(signer)
    ensures Truthy(address) && !address.Str? ==> r == Err(TypeError)
  {
    match address
    case Str(s) => if |s| > 0 then node.nonceOf(s) else node.nonceOf(signer)
    case _ => if Truthy(address) then Err(TypeError) else node.nonceOf(signer)
  }

  /** Every falsy address (None, "", 0, ...) asks for the signer's nonce, and
      so does the signer's own address given explicitly. */
  lemma NonceDefaultsToSigner(address: Value, signer: string, node: Node)
    requires !Truthy(address) || (address == Str(signer) && |signer| > 0)
    ensures GetNonce(address, signer, node) == GetNonce(Null, signer, node) == node.nonceOf(signer)
  {
  }

  /** A node answer in base units wrapped as `TokenAmount(..., wei=True)`:
      the integer comes back unchanged when the network's decimals are
      usable, and the construction fails otherwise. */
  function WeiAnswer(answer: Result<int>, decimals: Option<int>): (r: Result<int>)
    ensures r.Ok? <==> answer.Ok? && decimals.Some? && decimals.value >= 0
    ensures r.Ok? ==> r.value == answer.value
  {
    var w :- answer;
    if decimals.None? || decimals.value < 0 then Err(TypeError) else Ok(w)
  }

  /** `WeiAnswer` is the round trip through the token-amount constructor:
      the same error, or the base units it stores. */
  lemma WeiAnswerIsTokenAmount(answer: Result<int>, decimals: Option<int>)
    requires answer.Ok?
    ensures var t := NewOnNetwork(FromInt(answer.value), decimals, true, false);
      && (t.Err? ==> WeiAnswer(answer, decimals) == Err(t.error))
      && (t.Ok? ==> WeiAnswer(answer, decimals) == Ok(t.value.wei))
  {
    TruncOfInteger(FromInt(answer.value), answer.value);
  }

  // The steps of `auto_add_params`, in order.

  /** Step 1: `chainId` is added only when the key is absent. */
  function FillChainId(p: Params, chainId: int): (q: Params)
    ensures "chainId" in q && q["chainId"] == (if "chainId" in p then p["chainId"] else Int(chainId))
  {
    if "chainId" in p then p else p["chainId" := Int(chainId)]
  }

  /** Step 2: a missing or falsy nonce (0 included) is fetched for the signer. */
  function FillNonce(p: Params, signer: string, node: Node): (r: Result<Params>)
    ensures Truthy(Get(p, "nonce")) ==> r == Ok(p)
    ensures !Truthy(Get(p, "nonce")) ==>
      && (node.nonceOf(signer).Err? ==> r.Err?)
      && (node.nonceOf(signer).Ok? ==> r == Ok(p["nonce" := Int(node.nonceOf(signer).value)]))
    ensures r.Ok? ==> "nonce" in r.value || Truthy(Get(p, "nonce"))
  {
    if Truthy(Get(p, "nonce")) then Ok(p)
    else
      var n :- GetNonce(Null, signer, node);
      Ok(p["nonce" := Int(n)])
  }

  /** Step 3: `from` is added only when the key is absent. */
  function FillFrom(p: Params, signer: string): (q: Params)
    ensures "from" in q && q["from"] == (if "from" in p then p["from"] else Str(signer))
  {
    if "from" in p then p else p["from" := Str(signer)]
  }

  /** The fee entry before the priority step: on type-2 networks the
      caller's `gasPrice` (or else the current price) moves to
      `maxFeePerGas`, replacing any value there; elsewhere `maxFeePerGas` is
      whatever the caller gave. */
  function MaxFeeBase(p: Params, txType: int, current: int): Option<Value> {
    if txType == 2 then Some(if "gasPrice" in p then p["gasPrice"] else Int(current))
    else if "maxFeePerGas" in p then Some(p["maxFeePerGas"])
    else None
  }

  /** Step 4: choose between the legacy price and the type-2 fee cap. */
  function FeeStep(p: Params, txType: int, current: int): (q: Params)
    ensures txType == 2 ==> "gasPrice" !in q
    ensures txType != 2 ==> "gasPrice" in q && q["gasPrice"] == (if "gasPrice" in p then p["gasPrice"] else Int(current))
    ensures MaxFeeBase(p, txType, current).Some? <==> "maxFeePerGas" in q
    ensures "maxFeePerGas" in q ==> q["maxFeePerGas"] == MaxFeeBase(p, txType, current).value
  {
    if txType == 2 then
      var fee := if "gasPrice" in p then p["gasPrice"] else Int(current);
      (p - {"gasPrice"})["maxFeePerGas" := fee]
    else if "gasPrice" !in p then p["gasPrice" := Int(current)]
    else p
  }

  /** Step 5: when there is a fee cap but no priority fee, the node's
      suggestion becomes the priority fee and is added to the cap. */
  function PriorityStep(p: Params, node: Node, decimals: Option<int>): (r: Result<Params>)
    ensures !("maxFeePerGas" in p && "maxPriorityFeePerGas" !in p) ==> r == Ok(p)
    ensures "maxFeePerGas" in p && "maxPriorityFeePerGas" !in p && r.Ok? ==>
      && WeiAnswer(node.maxPriorityFee, decimals).Ok?
      && var fee := node.maxPriorityFee.value;
      && "maxPriorityFeePerGas" in r.value && "maxFeePerGas" in r.value
      && r.value["maxPriorityFeePerGas"] == Int(fee)
      && Values.AddInt(p["maxFeePerGas"], fee) == Ok(r.value["maxFeePerGas"])
    ensures r.Ok? ==> "maxFeePerGas" in r.value <==> "maxFeePerGas" in p
  {
    if "maxFeePerGas" in p && "maxPriorityFeePerGas" !in p then
      var fee :- WeiAnswer(node.maxPriorityFee, decimals);
      var q := p["maxPriorityFeePerGas" := Int(fee)];
      var cap :- Values.AddInt(q["maxFeePerGas"], fee);
      Ok(q["maxFeePerGas" := cap])
    else Ok(p)
  }

  /** `s * n` for a string and an integer: `n` copies, none when `n <= 0`. */
  function Repeat(s: string, n: int): (r: string)
    ensures n <= 0 ==> r == ""
    ensures n > 0 ==> |r| == n * |s|
    decreases n
  {
    if n <= 0 then "" else s + Repeat(s, n - 1)
  }

  /** `int(wei * multiplier)`: an integer multiplier multiplies, a number
      multiplies and truncates, `None` raises TypeError, and a string is
      repeated and then parsed. */
  function ScaleGas(wei: int, multiplier: Value): (r: Result<int>)
    ensures multiplier.Int? ==> r == Ok(wei * multiplier.i)
    ensures multiplier.Num? ==> r == Ok(TruncMul(multiplier.d, wei))
    ensures multiplier.Null? ==> r == Err(TypeError)
  {
    match multiplier
    case Null => Err(TypeError)
    case Int(k) => Ok(wei * k)
    case Num(d) => Ok(TruncMul(d, wei))
    case Str(s) => IntOf(Str(Repeat(s, wei)))
  }

  /** The gas entry needs estimating: it is missing or falsy, or it
      converts to the integer 0. */
  function NeedsEstimate(gas: Value): (r: Result<bool>)
    ensures !Truthy(gas) ==> r == Ok(true)
    ensures Truthy(gas) ==> r == (match IntOf(gas) case Ok(n) => Ok(n == 0) case Err(e) => Err(e))
  {
    if !Truthy(gas) then Ok(true)
    else
      var n :- IntOf(gas);
      Ok(n == 0)
  }

  /** Steps 6 and 7: `multiplier` is removed (default 1); the gas limit is
      estimated on the remaining parameters and scaled when it needs
      estimating, and kept otherwise. */
  function GasStep(p: Params, node: Node, decimals: Option<int>): (r: Result<Params>)
    ensures r.Ok? ==> "multiplier" !in r.value
    ensures r.Ok? ==> NeedsEstimate(Get(p, "gas")).Ok?
    ensures r.Ok? && NeedsEstimate(Get(p, "gas")) == Ok(false) ==>
      "gas" in p && "gas" in r.value && r.value["gas"] == p["gas"]
    ensures r.Ok? && NeedsEstimate(Get(p, "gas")) == Ok(true) ==>
      var multiplier := if "multiplier" in p then p["multiplier"] else Int(1);
      && WeiAnswer(node.estimateGas(p - {"multiplier"}), decimals).Ok?
      && ScaleGas(node.estimateGas(p - {"multiplier"}).value, multiplier).Ok?
      && "gas" in r.value
      && r.value["gas"] == Int(ScaleGas(node.estimateGas(p - {"multiplier"}).value, multiplier).value)
  {
    var multiplier := if "multiplier" in p then p["multiplier"] else Int(1);
    var q := p - {"multiplier"};
    var estimate :- NeedsEstimate(Get(q, "gas"));
    if estimate then
      var e :- WeiAnswer(node.estimateGas(q), decimals);
      var gas :- ScaleGas(e, multiplier);
      Ok(q["gas" := Int(gas)])
    else Ok(q)
  }

  // Each step changes its own keys and no other.

  lemma FillChainIdKeepsOthers(p: Params, chainId: int)
    ensures AgreeOutside(p, FillChainId(p, chainId), {"chainId"})
  {
  }

  lemma FillNonceKeepsOthers(p: Params, signer: string, node: Node)
    requires FillNonce(p, signer, node).Ok?
    ensures AgreeOutside(p, FillNonce(p, signer, node).value, {"nonce"})
  {
  }

  lemma FillFromKeepsOthers(p: Params, signer: string)
    ensures AgreeOutside(p, FillFrom(p, signer), {"from"})
  {
  }

  lemma FeeStepKeepsOthers(p: Params, txType: int, current: int)
    ensures AgreeOutside(p, FeeStep(p, txType, current), {"gasPrice", "maxFeePerGas"})
  {
  }

  lemma PriorityStepKeepsOthers(p: Params, node: Node, decimals: Option<int>)
    requires PriorityStep(p, node, decimals).Ok?
    ensures AgreeOutside(p, PriorityStep(p, node, decimals).value, {"maxFeePerGas", "maxPriorityFeePerGas"})
  {
  }

  lemma GasStepKeepsOthers(p: Params, node: Node, decimals: Option<int>)
    requires GasStep(p, node, decimals).Ok?
    ensures AgreeOutside(p, GasStep(p, node, decimals).value, {"multiplier", "gas"})
  {
  }

  /** `auto_add_params`: the steps above, in order, with the current gas
      price queried (and wrapped with the network's decimals) every time,
      whether or not a fee step uses it. The lemmas below state what the
      completed dictionary holds. */
  function AutoAddParams(p: Params, net: Network, signer: string, node: Node): (r: Result<Params>)
    ensures r.Ok? ==> "multiplier" !in r.value
    ensures r.Ok? ==> WeiAnswer(node.gasPrice, net.decimals).Ok?
    ensures !WeiAnswer(node.gasPrice, net.decimals).Ok? ==> r.Err?
  {
    var q1 := FillChainId(p, net.chainId);
    var q2 :- FillNonce(q1, signer, node);
    var q3 := FillFrom(q2, signer);
    var current :- WeiAnswer(node.gasPrice, net.decimals);
    var q4 := FeeStep(q3, net.txType, current);
    var q5 :- PriorityStep(q4, node, net.decimals);
    GasStep(q5, node, net.decimals)
  }

  /** The intermediate dictionaries of one completion, step by step. */
  datatype Trace = Trace(q1: Params, q2: Params, q3: Params, current: int, q4: Params, q5: Params)

  /** `t` records a completion of `p` that ends in `r`. */
  predicate Completes(p: Params, net: Network, signer: string, node: Node, t: Trace, r: Params) {
    && t.q1 == FillChainId(p, net.chainId)
    && FillNonce(t.q1, signer, node) == Ok(t.q2)
    && t.q3 == FillFrom(t.q2, signer)
    && WeiAnswer(node.gasPrice, net.decimals) == Ok(t.current)
    && t.q4 == FeeStep(t.q3, net.txType, t.current)
    && PriorityStep(t.q4, node, net.decimals) == Ok(t.q5)
    && GasStep(t.q5, node, net.decimals) == Ok(r)
  }

  /** A successful completion has a trace. */
  lemma Stages(p: Params, net: Network, signer: string, node: Node) returns (t: Trace)
    requires AutoAddParams(p, net, signer, node).Ok?
    ensures Completes(p, net, signer, node, t, AutoAddParams(p, net, signer, node).value)
  {
    var q1 := FillChainId(p, net.chainId);
    var q2 := FillNonce(q1, signer, node).value;
    var q3 := FillFrom(q2, signer);
    var current := WeiAnswer(node.gasPrice, net.decimals).value;
    var q4 := FeeStep(q3, net.txType, current);
    var q5 := PriorityStep(q4, node, net.decimals).value;
    t := Trace(q1, q2, q3, current, q4, q5);
  }

  /** Each step leaves the keys outside its own alone. */
  ghost predicate StepsAgree(p: Params, t: Trace, r: Params) {
    && AgreeOutside(p, t.q1, {"chainId"})
    && AgreeOutside(t.q1, t.q2, {"nonce"})
    && AgreeOutside(t.q2, t.q3, {"from"})
    && AgreeOutside(t.q3, t.q4, {"gasPrice", "maxFeePerGas"})
    && AgreeOutside(t.q4, t.q5, {"maxFeePerGas", "maxPriorityFeePerGas"})
    && AgreeOutside(t.q5, r, {"multiplier", "gas"})
  }

  lemma TraceAgrees(p: Params, net: Network, signer: string, node: Node, t: Trace, r: Params)
    requires Completes(p, net, signer, node, t, r)
    ensures StepsAgree(p, t, r)
  {
    FillChainIdKeepsOthers(p, net.chainId);
    FillNonceKeepsOthers(t.q1, signer, node);
    FillFromKeepsOthers(t.q2, signer);
    FeeStepKeepsOthers(t.q3, net.txType, t.current);
    PriorityStepKeepsOthers(t.q4, node, net.decimals);
    GasStepKeepsOthers(t.q5, node, net.decimals);
  }

  /** Along the steps every key outside `Managed` is carried through. */
  lemma StepsKeepOtherKeys(p: Params, t: Trace, r: Params)
    requires StepsAgree(p, t, r)
    ensures AgreeOutside(p, r, Managed)
  {
  }

  /** Keys outside the managed set (`to`, `data`, `value`, ...) come out
      exactly as they went in. */
  lemma AutoAddKeepsOtherKeys(p: Params, net: Network, signer: string, node: Node)
    requires AutoAddParams(p, net, signer, node).Ok?
    ensures AgreeOutside(p, AutoAddParams(p, net, signer, node).value, Managed)
  {
    var t := Stages(p, net, signer, node);
    var r := AutoAddParams(p, net, signer, node).value;
    TraceAgrees(p, net, signer, node, t, r);
    StepsKeepOtherKeys(p, t, r);
  }

  /** What the first three steps do to `chainId`, `nonce` and `from`. */
  predicate IdentitySteps(p: Params, net: Network, signer: string, node: Node, t: Trace) {
    && "chainId" in t.q1 && t.q1["chainId"] == (if "chainId" in p then p["chainId"] else Int(net.chainId))
    && (Truthy(Get(t.q1, "nonce")) ==> t.q2 == t.q1)
    && (!Truthy(Get(t.q1, "nonce")) ==>
          node.nonceOf(signer).Ok? && t.q2 == t.q1["nonce" := Int(node.nonceOf(signer).value)])
    && "from" in t.q3 && t.q3["from"] == (if "from" in t.q2 then t.q2["from"] else Str(signer))
  }

  lemma TraceIdentitySteps(p: Params, net: Network, signer: string, node: Node, t: Trace, r: Params)
    requires Completes(p, net, signer, node, t, r)
    ensures IdentitySteps(p, net, signer, node, t)
  {
  }

  /** The identity fields of a completed dictionary (see `AutoAddIdentityFields`). */
  predicate IdentityFields(p: Params, net: Network, signer: string, node: Node, r: Params) {
    && "chainId" in r && r["chainId"] == (if "chainId" in p then p["chainId"] else Int(net.chainId))
    && "from" in r && r["from"] == (if "from" in p then p["from"] else Str(signer))
    && "nonce" in r
    && (Truthy(Get(p, "nonce")) ==> r["nonce"] == p["nonce"])
    && (!Truthy(Get(p, "nonce")) ==> node.nonceOf(signer).Ok? && r["nonce"] == Int(node.nonceOf(signer).value))
  }

  lemma StepsIdentityFields(p: Params, net: Network, signer: string, node: Node, t: Trace, r: Params)
    requires StepsAgree(p, t, r) && IdentitySteps(p, net, signer, node, t)
    ensures IdentityFields(p, net, signer, node, r)
  {
    CarryTail(p, t, r, "chainId");
    CarryTail(p, t, r, "nonce");
    CarryTail(p, t, r, "from");
    assert Get(t.q1, "nonce") == Get(p, "nonce");
    assert "chainId" in t.q3 && t.q3["chainId"] == t.q1["chainId"];
    assert "nonce" in t.q2 ==> "nonce" in t.q3 && t.q3["nonce"] == t.q2["nonce"];
  }

  /** A key no later step manages is carried from the third dictionary to
      the result. */
  lemma CarryTail(p: Params, t: Trace, r: Params, k: string)
    requires StepsAgree(p, t, r)
    requires k in {"chainId", "nonce", "from"}
    ensures (k in t.q3 <==> k in r) && (k in t.q3 ==> t.q3[k] == r[k])
  {
  }

  /** `chainId` and `from` are filled only when the key is absent (a present
      key is kept, even holding `None`); a missing or falsy nonce, 0
      included, is replaced by the signer's fetched nonce. */
  lemma AutoAddIdentityFields(p: Params, net: Network, signer: string, node: Node)
    requires AutoAddParams(p, net, signer, node).Ok?
    ensures IdentityFields(p, net, signer, node, AutoAddParams(p, net, signer, node).value)
  {
    var t := Stages(p, net, signer, node);
    var r := AutoAddParams(p, net, signer, node).value;
    TraceAgrees(p, net, signer, node, t, r);
    TraceIdentitySteps(p, net, signer, node, t, r);
    StepsIdentityFields(p, net, signer, node, t, r);
  }

  /** What the fee and priority steps do, with the current price read
      from the node. */
  predicate FeeSteps(net: Network, node: Node, t: Trace) {
    && node.gasPrice == Ok(t.current)
    && (net.txType == 2 ==> "gasPrice" !in t.q4)
    && (net.txType != 2 ==>
          "gasPrice" in t.q4 && t.q4["gasPrice"] == (if "gasPrice" in t.q3 then t.q3["gasPrice"] else Int(t.current)))
    && (MaxFeeBase(t.q3, net.txType, t.current).Some? <==> "maxFeePerGas" in t.q4)
    && ("maxFeePerGas" in t.q4 ==> t.q4["maxFeePerGas"] == MaxFeeBase(t.q3, net.txType, t.current).value)
    && (!("maxFeePerGas" in t.q4 && "maxPriorityFeePerGas" !in t.q4) ==> t.q5 == t.q4)
    && ("maxFeePerGas" in t.q4 && "maxPriorityFeePerGas" !in t.q4 ==>
          && node.maxPriorityFee.Ok?
          && "maxPriorityFeePerGas" in t.q5 && "maxFeePerGas" in t.q5
          && t.q5["maxPriorityFeePerGas"] == Int(node.maxPriorityFee.value)
          && Values.AddInt(t.q4["maxFeePerGas"], node.maxPriorityFee.value) == Ok(t.q5["maxFeePerGas"]))
    && ("maxFeePerGas" in t.q5 <==> "maxFeePerGas" in t.q4)
  }

  lemma TraceFeeSteps(p: Params, net: Network, signer: string, node: Node, t: Trace, r: Params)
    requires Completes(p, net, signer, node, t, r)
    ensures FeeSteps(net, node, t)
  {
  }

  /** The fee fields of a completed dictionary (see `AutoAddFees`). */
  predicate FeeFields(p: Params, net: Network, node: Node, r: Params)
    requires node.gasPrice.Ok?
  {
    var base := MaxFeeBase(p, net.txType, node.gasPrice.value);
    && (net.txType == 2 ==> "gasPrice" !in r && "maxFeePerGas" in r)
    && (net.txType != 2 ==>
        "gasPrice" in r && r["gasPrice"] == (if "gasPrice" in p then p["gasPrice"] else Int(node.gasPrice.value)))
    && (base.None? ==>
        && "maxFeePerGas" !in r
        && ("maxPriorityFeePerGas" in r <==> "maxPriorityFeePerGas" in p)
        && ("maxPriorityFeePerGas" in p ==> r["maxPriorityFeePerGas"] == p["maxPriorityFeePerGas"]))
    && (base.Some? && "maxPriorityFeePerGas" in p ==>
        && "maxFeePerGas" in r && r["maxFeePerGas"] == base.value
        && "maxPriorityFeePerGas" in r && r["maxPriorityFeePerGas"] == p["maxPriorityFeePerGas"])
    && (base.Some? && "maxPriorityFeePerGas" !in p ==>
        && node.maxPriorityFee.Ok?
        && "maxPriorityFeePerGas" in r && r["maxPriorityFeePerGas"] == Int(node.maxPriorityFee.value)
        && "maxFeePerGas" in r && Values.AddInt(base.value, node.maxPriorityFee.value) == Ok(r["maxFeePerGas"]))
  }

  lemma StepsFeeFields(p: Params, net: Network, node: Node, t: Trace, r: Params)
    requires StepsAgree(p, t, r) && FeeSteps(net, node, t)
    ensures FeeFields(p, net, node, r)
  {
    assert AgreeOutside(p, t.q3, {"chainId", "nonce", "from"});
    assert MaxFeeBase(t.q3, net.txType, t.current) == MaxFeeBase(p, net.txType, t.current);
  }

  /** The fee fields. On a type-2 network no `gasPrice` survives and there is
      always a fee cap; elsewhere a given `gasPrice` is kept and a missing one
      becomes the current price. A fee cap without a priority fee (which on
      a legacy network only the caller can supply) gets the node's suggested
      priority fee added on top; a cap with one, or no cap, is left alone. */
  lemma AutoAddFees(p: Params, net: Network, signer: string, node: Node)
    requires AutoAddParams(p, net, signer, node).Ok?
    ensures node.gasPrice.Ok? && FeeFields(p, net, node, AutoAddParams(p, net, signer, node).value)
  {
    var t := Stages(p, net, signer, node);
    var r := AutoAddParams(p, net, signer, node).value;
    TraceAgrees(p, net, signer, node, t, r);
    TraceFeeSteps(p, net, signer, node, t, r);
    StepsFeeFields(p, net, node, t, r);
  }

  /** The gas entry of a completed dictionary (see `AutoAddGas`). */
  predicate GasField(p: Params, node: Node, r: Params) {
    var multiplier := if "multiplier" in p then p["multiplier"] else Int(1);
    var sent := if "gas" in p then r["gas" := p["gas"]] else r - {"gas"};
    && NeedsEstimate(Get(p, "gas")).Ok?
    && (NeedsEstimate(Get(p, "gas")) == Ok(false) ==> "gas" in p && "gas" in r && r["gas"] == p["gas"])
    && (NeedsEstimate(Get(p, "gas")) == Ok(true) ==>
        && node.estimateGas(sent).Ok?
        && ScaleGas(node.estimateGas(sent).value, multiplier).Ok?
        && "gas" in r && r["gas"] == Int(ScaleGas(node.estimateGas(sent).value, multiplier).value))
  }

  /** The dictionary the gas step receives holds the caller's `gas` and
      `multiplier` entries. */
  lemma StepsKeepGasInput(p: Params, t: Trace, r: Params)
    requires StepsAgree(p, t, r)
    ensures ("gas" in t.q5 <==> "gas" in p) && ("gas" in p ==> t.q5["gas"] == p["gas"])
    ensures ("multiplier" in t.q5 <==> "multiplier" in p) && ("multiplier" in p ==> t.q5["multiplier"] == p["multiplier"])
  {
  }

  /** What the estimate saw, recovered from the completed dictionary: the
      result with `gas` put back as it was before the step. */
  lemma GasStepInput(p: Params, node: Node, decimals: Option<int>)
    requires GasStep(p, node, decimals).Ok?
    ensures var r := GasStep(p, node, decimals).value;
      p - {"multiplier"} == (if "gas" in p then r["gas" := p["gas"]] else r - {"gas"})
  {
    var r := GasStep(p, node, decimals).value;
    var sent := if "gas" in p then r["gas" := p["gas"]] else r - {"gas"};
    assert sent.Keys == (p - {"multiplier"}).Keys;
  }

  /** A gas step whose input holds the caller's `gas` and `multiplier`
      entries ends in the gas field the caller asked for. */
  lemma GasStepField(p: Params, q: Params, node: Node, decimals: Option<int>, r: Params)
    requires GasStep(q, node, decimals) == Ok(r)
    requires ("gas" in q <==> "gas" in p) && ("gas" in p ==> q["gas"] == p["gas"])
    requires ("multiplier" in q <==> "multiplier" in p) && ("multiplier" in p ==> q["multiplier"] == p["multiplier"])
    ensures GasField(p, node, r)
  {
    assert Get(q, "gas") == Get(p, "gas");
    if NeedsEstimate(Get(p, "gas")) == Ok(true) {
      GasStepInput(q, node, decimals);
    }
  }

  /** The gas limit. A missing or falsy `gas`, or one that converts to 0, is
      estimated on the completed dictionary (without `multiplier`, and with
      `gas` as the caller gave it) and scaled by the multiplier, default 1; a
      non-zero `gas` is kept; one that does not convert fails. */
  lemma AutoAddGas(p: Params, net: Network, signer: string, node: Node)
    requires AutoAddParams(p, net, signer, node).Ok?
    ensures GasField(p, node, AutoAddParams(p, net, signer, node).value)
  {
    var t := Stages(p, net, signer, node);
    var r := AutoAddParams(p, net, signer, node).value;
    TraceAgrees(p, net, signer, node, t, r);
    StepsKeepGasInput(p, t, r);
    GasStepField(p, t.q5, node, net.decimals, r);
  }

  /** Completing a type-2 dictionary that lacked `gasPrice` and
      `maxPriorityFeePerGas` sets the cap to the current price plus the
      suggested priority fee; completing the result once more resets the cap
      to the bare current price, because the priority fee is now present and
      is not added again. */
  lemma Type2RerunResetsCap(p: Params, net: Network, signer: string, node: Node)
    requires net.txType == 2
    requires AutoAddParams(p, net, signer, node).Ok?
    requires AutoAddParams(AutoAddParams(p, net, signer, node).value, net, signer, node).Ok?
    ensures var r1 := AutoAddParams(p, net, signer, node).value;
      var r2 := AutoAddParams(r1, net, signer, node).value;
      && "maxFeePerGas" in r1 && "maxFeePerGas" in r2
      && node.gasPrice.Ok?
      && ("gasPrice" !in p && "maxPriorityFeePerGas" !in p ==>
            node.maxPriorityFee.Ok? && r1["maxFeePerGas"] == Int(node.gasPrice.value + node.maxPriorityFee.value))
      && r2["maxFeePerGas"] == Int(node.gasPrice.value)
  {
    var r1 := AutoAddParams(p, net, signer, node).value;
    var r2 := AutoAddParams(r1, net, signer, node).value;
    AutoAddFees(p, net, signer, node);
    AutoAddFees(r1, net, signer, node);
    Type2Fees(p, net, node, r1);
    Type2Fees(r1, net, node, r2);
  }

  /** On a type-2 network the fee fields leave a cap and a priority fee and
      no legacy price; the cap is the current price, plus the suggested
      priority fee when the caller gave neither a price nor a priority fee. */
  lemma Type2Fees(p: Params, net: Network, node: Node, r: Params)
    requires net.txType == 2 && node.gasPrice.Ok? && FeeFields(p, net, node, r)
    ensures "gasPrice" !in r && "maxFeePerGas" in r && "maxPriorityFeePerGas" in r
    ensures "gasPrice" !in p && "maxPriorityFeePerGas" !in p ==>
      node.maxPriorityFee.Ok? && r["maxFeePerGas"] == Int(node.gasPrice.value + node.maxPriorityFee.value)
    ensures "gasPrice" !in p && "maxPriorityFeePerGas" in p ==> r["maxFeePerGas"] == Int(node.gasPrice.value)
  {
  }

  /** On a legacy network a completed dictionary whose gas limit is set is a
      fixed point: completing it again changes nothing. */
  lemma {:induction false} LegacyRerunIsStable(p: Params, net: Network, signer: string, node: Node)
    requires net.txType != 2
    requires AutoAddParams(p, net, signer, node).Ok?
    requires NeedsEstimate(Get(AutoAddParams(p, net, signer, node).value, "gas")) == Ok(false)
    ensures var r1 := AutoAddParams(p, net, signer, node).value;
      AutoAddParams(r1, net, signer, node) == Ok(r1)
  {
    var r1 := AutoAddParams(p, net, signer, node).value;
    AutoAddIdentityFields(p, net, signer, node);
    AutoAddFees(p, net, signer, node);
    LegacyFixedPoint(p, r1, net, signer, node);
  }

  /** A legacy dictionary that already holds the identity fields, a price,
      a set gas limit and no multiplier, and whose cap (if any) has a
      priority fee, passes every step unchanged. */
  lemma LegacyFixedPoint(p: Params, r1: Params, net: Network, signer: string, node: Node)
    requires net.txType != 2 && node.gasPrice.Ok?
    requires "multiplier" !in r1 && NeedsEstimate(Get(r1, "gas")) == Ok(false)
    requires IdentityFields(p, net, signer, node, r1) && FeeFields(p, net, node, r1)
    requires WeiAnswer(node.gasPrice, net.decimals).Ok?
    ensures AutoAddParams(r1, net, signer, node) == Ok(r1)
  {
    assert FillChainId(r1, net.chainId) == r1;
    assert FillNonce(r1, signer, node) == Ok(r1) by {
      if !Truthy(Get(r1, "nonce")) {
        assert r1["nonce" := r1["nonce"]] == r1;
      }
    }
    assert FillFrom(r1, signer) == r1;
    var current := WeiAnswer(node.gasPrice, net.decimals).value;
    assert FeeStep(r1, net.txType, current) == r1;
    assert PriorityStep(r1, node, net.decimals) == Ok(r1);
    assert r1 - {"multiplier"} == r1;
    assert GasStep(r1, node, net.decimals) == Ok(r1);
  }

  /** A dictionary holding none of the managed keys is completed whenever
      the node answers and the network's decimals are usable. */
  lemma AutoAddSucceeds(p: Params, net: Network, signer: string, node: Node)
    requires forall k :: k in p ==> k !in Managed
    requires net.decimals.Some? && net.decimals.value >= 0
    requires node.nonceOf(signer).Ok? && node.gasPrice.Ok? && node.maxPriorityFee.Ok?
    requires forall q :: node.estimateGas(q).Ok?
    ensures AutoAddParams(p, net, signer, node).Ok?
  {
    var q1 := FillChainId(p, net.chainId);
    var q2 := FillNonce(q1, signer, node).value;
    var q3 := FillFrom(q2, signer);
    var current := WeiAnswer(node.gasPrice, net.decimals).value;
    var q4 := FeeStep(q3, net.txType, current);
    FillChainIdKeepsOthers(p, net.chainId);
    FillNonceKeepsOthers(q1, signer, node);
    FillFromKeepsOthers(q2, signer);
    FeeStepKeepsOthers(q3, net.txType, current);
    UnmanagedStart(p, q1, q2, q3, q4);
    assert "maxFeePerGas" in q4 ==> q4["maxFeePerGas"] == Int(current);
    PriorityStepSucceeds(q4, node, net.decimals);
    var q5 := PriorityStep(q4, node, net.decimals).value;
    assert "gas" !in q5 && "multiplier" !in q5;
    GasStepSucceeds(q5, node, net.decimals);
  }

  /** Starting without managed keys, the first four steps add none of the
      fee or gas keys except through the fee step, which adds no priority
      fee. */
  lemma UnmanagedStart(p: Params, q1: Params, q2: Params, q3: Params, q4: Params)
    requires forall k :: k in p ==> k !in Managed
    requires AgreeOutside(p, q1, {"chainId"}) && AgreeOutside(q1, q2, {"nonce"}) && AgreeOutside(q2, q3, {"from"})
    requires AgreeOutside(q3, q4, {"gasPrice", "maxFeePerGas"})
    ensures "gasPrice" !in q3 && "maxFeePerGas" !in q3
    ensures "gas" !in q4 && "multiplier" !in q4 && "maxPriorityFeePerGas" !in q4
  {
    assert "gasPrice" in Managed && "maxFeePerGas" in Managed && "maxPriorityFeePerGas" in Managed;
    assert "gas" in Managed && "multiplier" in Managed;
  }

  /** The priority step fails only on the node's answer or on a cap that
      cannot be added to. */
  lemma PriorityStepSucceeds(q: Params, node: Node, decimals: Option<int>)
    requires decimals.Some? && decimals.value >= 0 && node.maxPriorityFee.Ok?
    requires "maxFeePerGas" in q ==> q["maxFeePerGas"].Int?
    ensures PriorityStep(q, node, decimals).Ok?
  {
  }

  /** Without `gas` and `multiplier` the gas step fails only on the
      estimate. */
  lemma GasStepSucceeds(q: Params, node: Node, decimals: Option<int>)
    requires decimals.Some? && decimals.value >= 0
    requires "gas" !in q && "multiplier" !in q
    requires forall q' :: node.estimateGas(q').Ok?
    ensures GasStep(q, node, decimals).Ok?
  {
    assert q - {"multiplier"} == q;
    assert NeedsEstimate(Get(q, "gas")) == Ok(true);
  }

  // The median priority fee of a block (`get_max_priority_fee_`).

  /** One read of the walk over a block's transactions: the read failed and
      is skipped, or it returned a transaction with or without
      `maxPriorityFeePerGas`. */
  datatype TxRead = Failed | Fetched(priorityFee: Option<int>)

  /** The priority fees found, in block order: each fee appears as many
      times as reads returned it. */
  function CollectFees(walk: seq<TxRead>): (fees: seq<int>)
    ensures |fees| <= |walk|
    ensures forall f :: f in fees <==> exists i :: 0 <= i < |walk| && walk[i] == Fetched(Some(f))
    ensures forall f :: multiset(fees)[f] == multiset(walk)[Fetched(Some(f))]
  {
    if |walk| == 0 then []
    else
      var rest := CollectFees(walk[1..]);
      assert forall i :: 0 <= i < |walk[1..]| ==> walk[1..][i] == walk[i + 1];
      assert walk == [walk[0]] + walk[1..];
      match walk[0]
      case Fetched(Some(f)) => [f] + rest
      case _ => rest
  }

  /** Collecting keeps block order: the fees of a walk split in two are the
      fees of the first part followed by those of the second. */
  lemma {:induction false} CollectFeesAppend(a: seq<TxRead>, b: seq<TxRead>)
    ensures CollectFees(a + b) == CollectFees(a) + CollectFees(b)
  {
    if |a| > 0 {
      assert (a + b)[1..] == a[1..] + b;
      CollectFeesAppend(a[1..], b);
    } else {
      assert a + b == b;
    }
  }

  /** The tests "at most `v`" and "at least `v`". */
  function AtMost(v: int): int -> bool { y => y <= v }

  function AtLeast(v: int): int -> bool { y => y >= v }

  /** In a sorted list the element at index `k` has at least `k + 1`
      elements at or below it. */
  lemma SortedCountBelow(t: seq<int>, k: nat)
    requires Sorted(t) && k < |t|
    ensures Count(t, AtMost(t[k])) >= k + 1
  {
    var a, b := t[..k + 1], t[k + 1..];
    assert t == a + b;
    CountAppend(a, b, AtMost(t[k]));
    assert forall i :: 0 <= i < |a| ==> AtMost(t[k])(a[i]);
    CountAll(a, AtMost(t[k]));
  }

  /** ... and at least `|t| - k` at or above it. */
  lemma SortedCountAbove(t: seq<int>, k: nat)
    requires Sorted(t) && k < |t|
    ensures Count(t, AtLeast(t[k])) >= |t| - k
  {
    var a, b := t[..k], t[k..];
    assert t == a + b;
    CountAppend(a, b, AtLeast(t[k]));
    assert forall i :: 0 <= i < |b| ==> AtLeast(t[k])(b[i]);
    CountAll(b, AtLeast(t[k]));
  }

  /** The element at index `n // 2` of the ascending list, or 0 for an empty
      list: a member with at least `n // 2 + 1` values at or below it and at
      least `n - n // 2` at or above it. */
  function MedianFee(fees: seq<int>): (m: int)
    ensures |fees| == 0 ==> m == 0
    ensures |fees| > 0 ==>
      && m in fees
      && Count(fees, AtMost(m)) >= |fees| / 2 + 1
      && Count(fees, AtLeast(m)) >= |fees| - |fees| / 2
  {
    if |fees| == 0 then 0
    else
      var t := Sort(fees);
      var m := t[|fees| / 2];
      assert m in multiset(t);
      SortedCountBelow(t, |fees| / 2);
      SortedCountAbove(t, |fees| / 2);
      CountSort(fees, AtMost(m));
      CountSort(fees, AtLeast(m));
      m
  }

  /** The median does not depend on the order of the block's transactions. */
  lemma MedianIgnoresOrder(a: seq<int>, b: seq<int>)
    requires multiset(a) == multiset(b)
    ensures MedianFee(a) == MedianFee(b)
  {
    assert |a| == |multiset(a)| == |multiset(b)| == |b|;
    SortIgnoresOrder(a, b);
  }

  /** The fee of a block once its transaction walk is given: the median of
      the fees found, as a base-unit amount on the network. */
  function MedianOfWalk(walk: seq<TxRead>, decimals: Option<int>): (r: Result<int>)
    ensures r.Ok? <==> decimals.Some? && decimals.value >= 0
    ensures r.Ok? && |CollectFees(walk)| == 0 ==> r.value == 0
    ensures r.Ok? && |CollectFees(walk)| > 0 ==>
      exists i :: 0 <= i < |walk| && walk[i] == Fetched(Some(r.value))
    ensures r.Ok? ==> r.value == MedianFee(CollectFees(walk))
  {
    WeiAnswer(Ok(MedianFee(CollectFees(walk))), decimals)
  }

  /** Two blocks whose readable transactions carry the same priority fees,
      in whatever order and whatever else they hold, give the same fee. */
  lemma MedianOfWalkIgnoresOrder(w1: seq<TxRead>, w2: seq<TxRead>, decimals: Option<int>)
    requires multiset(CollectFees(w1)) == multiset(CollectFees(w2))
    ensures MedianOfWalk(w1, decimals) == MedianOfWalk(w2, decimals)
  {
    MedianIgnoresOrder(CollectFees(w1), CollectFees(w2));
  }

  /** In particular, reading the same transactions in another order gives
      the same fee. */
  lemma ShuffledWalkSameFee(w1: seq<TxRead>, w2: seq<TxRead>, decimals: Option<int>)
    requires multiset(w1) == multiset(w2)
    ensures MedianOfWalk(w1, decimals) == MedianOfWalk(w2, decimals)
  {
    var c1, c2 := CollectFees(w1), CollectFees(w2);
    forall f
      ensures multiset(c1)[f] == multiset(c2)[f]
    {
      assert multiset(c1)[f] == multiset(w1)[Fetched(Some(f))];
    }
    assert multiset(c1) == multiset(c2);
    MedianOfWalkIgnoresOrder(w1, w2, decimals);
  }

  /** The node's answers to the block queries: the latest block, the
      transaction count of a block number, and the transaction read at an
      index of a block. */
  datatype BlockNode = BlockNode(
    latest: Result<map<string, Value>>,
    txCount: Value -> Result<int>,
    txAt: (Value, nat) -> TxRead)

  /** Python's `not block` for an optional dictionary. */
  predicate FalsyBlock(block: Option<map<string, Value>>) {
    block.None? || block.value == map[]
  }

  /** The block number and the transaction count the walk runs over. A falsy
      `block` is replaced by the latest block; a block without `number`
      raises KeyError; the failures of both node queries propagate. */
  function BlockToWalk(block: Option<map<string, Value>>, bn: BlockNode): (r: Result<(Value, int)>)
    ensures FalsyBlock(block) && bn.latest.Err? ==> r == Err(bn.latest.error)
    ensures !FalsyBlock(block) && "number" !in block.value ==> r == Err(KeyError)
    ensures !FalsyBlock(block) && "number" in block.value ==> r.Ok? == bn.txCount(block.value["number"]).Ok?
    ensures !FalsyBlock(block) && "number" in block.value && bn.txCount(block.value["number"]).Err? ==>
      r == Err(bn.txCount(block.value["number"]).error)
    ensures r.Ok? ==> bn.txCount(r.value.0) == Ok(r.value.1)
    ensures r.Ok? && !FalsyBlock(block) ==> r.value.0 == block.value["number"]
    ensures r.Ok? && FalsyBlock(block) ==>
      bn.latest.Ok? && "number" in bn.latest.value && r.value.0 == bn.latest.value["number"]
  {
    var b :- if FalsyBlock(block) then bn.latest else Ok(block.value);
    if "number" !in b then Err(KeyError)
    else
      var count :- bn.txCount(b["number"]);
      Ok((b["number"], count))
  }

  /** The reads of the walk: indices 0 up to the count, none for a count
      below one. */
  function Walk(number: Value, count: int, txAt: (Value, nat) -> TxRead): seq<TxRead> {
    seq(if count < 0 then 0 else count, i requires 0 <= i => txAt(number, i))
  }

  /** `get_max_priority_fee_`: the block query and the transaction count,
      outside the `try`, can fail; every failing transaction read is
      skipped; the result is the median fee as a base-unit amount. */
  function MedianPriorityFee(block: Option<map<string, Value>>, bn: BlockNode, decimals: Option<int>): (r: Result<int>)
    ensures r.Ok? <==> BlockToWalk(block, bn).Ok? && decimals.Some? && decimals.value >= 0
    ensures BlockToWalk(block, bn).Err? ==> r == Err(BlockToWalk(block, bn).error)
    ensures r.Ok? ==>
      var (number, count) := BlockToWalk(block, bn).value;
      r.value == MedianFee(CollectFees(Walk(number, count, bn.txAt)))
  {
    var (number, count) :- BlockToWalk(block, bn);
    MedianOfWalk(Walk(number, count, bn.txAt), decimals)
  }

  /** A block given by the caller is used as it is: the latest block is not
      consulted. */
  lemma GivenBlockIgnoresLatest(block: map<string, Value>, bn: BlockNode, latest: Result<map<string, Value>>, decimals: Option<int>)
    requires block != map[]
    ensures MedianPriorityFee(Some(block), bn, decimals) == MedianPriorityFee(Some(block), bn.(latest := latest), decimals)
  {
  }

  /** Without a block (None or an empty dictionary) the fee is that of the
      latest block passed in directly. */
  lemma FalsyBlockReadsLatest(bn: BlockNode, decimals: Option<int>)
    requires bn.latest.Ok? && bn.latest.value != map[]
    ensures MedianPriorityFee(None, bn, decimals) == MedianPriorityFee(Some(map[]), bn, decimals)
      == MedianPriorityFee(Some(bn.latest.value), bn, decimals)
  {
  }

  /** `sign_and_send`: complete, sign, send, and wrap the returned hash with
      the completed parameters. Signing and sending are given functions. */
  function SignAndSend(p: Params, net: Network, signer: string, node: Node,
                       sign: Params -> Result<seq<byte>>, send: seq<byte> -> Result<seq<byte>>): (r: Result<Tx>)
    ensures AutoAddParams(p, net, signer, node).Err? ==> r == Err(AutoAddParams(p, net, signer, node).error)
    ensures r.Ok? <==>
      && AutoAddParams(p, net, signer, node).Ok?
      && sign(AutoAddParams(p, net, signer, node).value).Ok?
      && send(sign(AutoAddParams(p, net, signer, node).value).value).Ok?
    ensures r.Ok? ==>
      var q := AutoAddParams(p, net, signer, node).value;
      && r.value.params == Some(q)
      && r.value.hash == Some(send(sign(q).value).value)
      && r.value.receipt.None?
  {
    var q :- AutoAddParams(p, net, signer, node);
    var raw :- sign(q);
    var hash :- send(raw);
    AutoAddIdentityFields(p, net, signer, node);
    assert "chainId" in q;
    TxHandle.New(HashBytes(hash), Some(q))
  }
}
