/** `ZkBridge.mint`: the mint transaction of the "Polyhedra 2024" NFT on one
    network — the per-network contract and call data, the fixed gas prices on
    BSC and opBNB, signing and sending, waiting for the receipt, and the one
    log line either outcome writes. Every failure is caught and logged. */
module ZkBridge {
  import opened Exceptions
  import opened Wrappers
  import opened Decimals
  import opened Text
  import opened Values
  import opened Constants
  import opened TokenAmounts
  import opened NetworkDescriptor
  import opened Networks
  import opened TxHandle
  import opened Transactions
  import opened Contracts

  const NftName := "Polyhedra 2024"

  /** The mint contract of the NFT on each supported network. */
  const MintAddresses: map<string, string> := map[
    "arbitrum" := "0x5d340658400e1d2352262c7c361ace0366bf6c24",
    "bsc" := "0x7c3aa07721578d00babdebf17c3352d7658b67fd",
    "ethereum" := "0xb7545014a3973b0d27a65ee76d1a5ee29d37b1c9",
    "op_bnb" := "0x61d7e121185b1d7902a3da7f3c8ac9faaee8863b",
    "optimism" := "0xee7c3d2ff9ef8dbf3e66704a156d3ee9700cf72e",
    "polygon" := "0xCd4b2E538c9D2C1ca117C8f5f2E8Fa56f6bA1069"]

  /** The selector of the argument-less `mint()` call. */
  const MintCallData := "0x1249c58b"

  datatype MintEntry = MintEntry(networks: map<string, string>, data: string)

  /** `MINT_DATA_DICT`. */
  const MintDataDict: map<string, MintEntry> := map[NftName := MintEntry(MintAddresses, MintCallData)]

  /** `GAS_PRICE_DICT`: the gas price, in gwei, forced on two networks
      (1 on BSC, 0.00002 on opBNB). */
  const GasPrices: map<string, Dec> := map["bsc" := Dec(1, 0), "op_bnb" := Dec(2, 5)]

  /** Everything the client answers during one mint: the network it is
      bound to, the signing address, the node, the checksum, signing and
      sending, and the receipt the wait ends with. */
  datatype Client = Client(
    network: Network,
    signer: string,
    node: Node,
    checksum: Checksum,
    sign: Params -> Result<seq<byte>>,
    send: seq<byte> -> Result<seq<byte>>,
    receipt: Result<Receipt>)

  /** The parameters of the mint call: `to` (checksummed contract) and
      `data`, plus `gasPrice` on the networks that force one. An unknown NFT
      or network is a KeyError. */
  function MintParams(nft: string, network: string, client: Client): (r: Result<Params>)
    ensures (nft !in MintDataDict || network !in MintDataDict[nft].networks) ==> r == Err(KeyError)
    ensures r.Ok? ==>
      && nft in MintDataDict && network in MintDataDict[nft].networks
      && var to := client.checksum(MintDataDict[nft].networks[network]);
      && to.Ok?
      && r.value.Keys == {"to", "data"} + (if network in GasPrices then {"gasPrice"} else {})
      && r.value["to"] == Str(to.value)
      && r.value["data"] == Str(MintDataDict[nft].data)
    ensures r.Ok? && network in GasPrices ==>
      client.network.decimals.Some? && client.network.decimals.value >= 0
      && r.value["gasPrice"] == Int(GweiOf(GasPrices[network]))
  {
    if nft !in MintDataDict || network !in MintDataDict[nft].networks then Err(KeyError)
    else
      var entry := MintDataDict[nft];
      var (to, _) :- GetContractAttributes(AddressRef(entry.networks[network]), client.checksum);
      var p: Params := map["to" := Str(to), "data" := Str(entry.data)];
      if network in GasPrices then
        var price :- NewOnNetwork(GasPrices[network], client.network.decimals, false, true);
        CoinAmountGwei(GasPrices[network], client.network.decimals.value);
        Ok(p["gasPrice" := Int(price.gwei.value)])
      else Ok(p)
  }

  /** The mint call as sent: parameters, then `sign_and_send`. */
  function SentTx(nft: string, network: string, client: Client): (r: Result<Tx>)
    ensures MintParams(nft, network, client).Err? ==> r == Err(MintParams(nft, network, client).error)
    ensures r.Ok? ==> MintParams(nft, network, client).Ok?
  {
    var p :- MintParams(nft, network, client);
    SignAndSend(p, client.network, client.signer, client.node, client.sign, client.send)
  }

  function MintedMessage(link: string): string {
    "The \"Polyhedra 2024\" NFT has been minted: " + link
  }

  /** The explorer link of a sent transaction: explorer, `/tx/`, and the hash
      in `0x`-prefixed hexadecimal. */
  function TxLink(explorer: string, hash: seq<byte>): string {
    explorer + TxPath + "0x" + ToHex(hash)
  }

  /** The body of the `try`: `Some(message)` when the receipt is truthy,
      `None` when it is empty; any exception propagates to the caller. A
      network without an explorer fails on the link (None + str). */
  function MintBody(nft: string, network: string, client: Client): (r: Result<Option<string>>)
    ensures SentTx(nft, network, client).Err? ==> r == Err(SentTx(nft, network, client).error)
    ensures SentTx(nft, network, client).Ok? && client.receipt.Err? ==> r == Err(client.receipt.error)
    ensures SentTx(nft, network, client).Ok? && client.receipt.Ok? ==>
      && (client.receipt.value == map[] ==> r == Ok(None))
      && (client.receipt.value != map[] && client.network.explorer.None? ==> r == Err(TypeError))
    ensures r.Ok? && r.value.Some? ==>
      && SentTx(nft, network, client).Ok? && SentTx(nft, network, client).value.hash.Some?
      && client.receipt.Ok? && client.receipt.value != map[]
      && client.network.explorer.Some?
      && r.value.value == MintedMessage(TxLink(client.network.explorer.value, SentTx(nft, network, client).value.hash.value))
  {
    var tx :- SentTx(nft, network, client);
    var (tx2, receipt) :- WaitForReceipt(tx, client.receipt);
    if receipt == map[] then Ok(None)
    else
      match client.network.explorer
      case None => Err(TypeError)
      case Some(explorer) =>
        match tx2.hash
        case None => Err(AttributeError)
        case Some(h) => Ok(Some(MintedMessage(TxLink(explorer, h))))
  }

  /** The one log line a mint writes. */
  datatype Logged = Logged(level: LogStatus, message: string) | LoggedError(error: Exception)

  datatype MintOutcome = MintOutcome(minted: bool, log: Option<Logged>)

  /** `mint`: True with a MINTED line naming the transaction, or False —
      silently when the receipt is empty, with an ERROR line carrying the
      exception otherwise. It never raises. */
  function Mint(nft: string, network: string, client: Client): (r: MintOutcome)
    ensures r.minted <==> MintBody(nft, network, client).Ok? && MintBody(nft, network, client).value.Some?
    ensures r.minted ==> r.log == Some(Logged(Minted, MintBody(nft, network, client).value.value))
    ensures !r.minted && MintBody(nft, network, client).Err? ==> r.log == Some(LoggedError(MintBody(nft, network, client).error))
    ensures !r.minted && MintBody(nft, network, client).Ok? ==> r.log.None?
  {
    match MintBody(nft, network, client)
    case Ok(Some(message)) => MintOutcome(true, Some(Logged(Minted, message)))
    case Ok(None) => MintOutcome(false, None)
    case Err(e) => MintOutcome(false, Some(LoggedError(e)))
  }

  /** A successful mint logs the link of exactly the transaction it sent:
      after the message's text, the explorer and `/tx/`, the rest decodes as
      hexadecimal to the sent hash. */
  lemma MintedLinkNamesTheHash(nft: string, network: string, client: Client)
    requires Mint(nft, network, client).minted
    ensures SentTx(nft, network, client).Ok? && SentTx(nft, network, client).value.hash.Some?
    ensures client.network.explorer.Some?
    ensures Mint(nft, network, client).log.Some? && Mint(nft, network, client).log.value.Logged?
    ensures var msg := Mint(nft, network, client).log.value.message;
      var head := MintedMessage(client.network.explorer.value + TxPath);
      && IsPrefix(head, msg)
      && FromHex(msg[|head|..]) == SentTx(nft, network, client).value.hash
  {
    var body := MintBody(nft, network, client);
    assert body.Ok? && body.value.Some?;
    var e := client.network.explorer.value;
    var h := SentTx(nft, network, client).value.hash.value;
    LinkDecodes(e, h);
  }

  lemma LinkDecodes(e: string, h: seq<byte>)
    ensures var msg := MintedMessage(TxLink(e, h));
      var head := MintedMessage(e + TxPath);
      IsPrefix(head, msg) && FromHex(msg[|head|..]) == Some(h)
  {
    var head := MintedMessage(e + TxPath);
    var link := "0x" + ToHex(h);
    assert MintedMessage(TxLink(e, h)) == head + link;
    assert (head + link)[|head|..] == link;
    assert (head + link)[..|head|] == head;
    PrefixedHexRoundTrip(h);
  }

  /** A mint reports success exactly when the parameters resolve, the node
      takes the signed transaction, the receipt arrives non-empty and the
      network has an explorer. */
  lemma MintSucceedsIff(nft: string, network: string, client: Client)
    ensures Mint(nft, network, client).minted <==>
      && SentTx(nft, network, client).Ok?
      && client.receipt.Ok? && client.receipt.value != map[]
      && client.network.explorer.Some?
  {
    if SentTx(nft, network, client).Ok? {
      var p := MintParams(nft, network, client).value;
      assert SentTx(nft, network, client) == SignAndSend(p, client.network, client.signer, client.node, client.sign, client.send);
    }
  }

  /** The NFT can be minted on exactly the networks the registry declares. */
  lemma MintNetworksAreTheDeclaredOnes()
    ensures MintAddresses.Keys == set i | 0 <= i < |Expected| :: Expected[i].0
  {
    var names := set i | 0 <= i < |Expected| :: Expected[i].0;
    assert Expected[0].0 in names && Expected[1].0 in names && Expected[2].0 in names;
    assert Expected[3].0 in names && Expected[4].0 in names && Expected[5].0 in names;
  }

  /** BSC sends a gas price of 1 gwei, opBNB of 0.00002 gwei (20000 wei);
      both are expressed in units of 10^-9 coins. */
  lemma ForcedGasPrices()
    ensures GweiOf(GasPrices["bsc"]) == 1000000000
    ensures GweiOf(GasPrices["op_bnb"]) == 20000
  {
    assert Pow10(9) == 1000000000;
  }

  /** On every other network the mint call carries only `to` and `data`, and
      the gas price is left to the automatic filling. */
  lemma OtherNetworksHaveNoGasPrice(network: string, client: Client)
    requires network in MintAddresses && network !in GasPrices
    requires client.checksum(MintAddresses[network]).Ok?
    ensures MintParams(NftName, network, client).Ok?
    ensures MintParams(NftName, network, client).value.Keys == {"to", "data"}
  {
  }

  /** An NFT the table does not know fails before anything is sent. */
  lemma UnknownNftIsLoggedError(nft: string, network: string, client: Client)
    requires nft != NftName
    ensures Mint(nft, network, client) == MintOutcome(false, Some(LoggedError(KeyError)))
  {
  }
}
