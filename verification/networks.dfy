/** `Networks`: the registry of the six supported chains, built once with
    fixed arguments, and the case-insensitive lookup by name. */
module Networks {
  import opened Exceptions
  import opened Wrappers
  import opened Text
  import opened Constants
  import opened NetworkDescriptor

  const EthereumArgs := NetworkArgs(
    "ethereum",
    Url("https://rpc.ankr.com/eth/720840b6beda865781b7beb539459137b7da7a657a58524b341d980a0a510f48"),
    Some(1), 2, Some(ETH), Some(18), Some("https://etherscan.io"))

  const ArbitrumArgs := NetworkArgs(
    "arbitrum",
    Urls([
      "https://rpc.ankr.com/arbitrum/720840b6beda865781b7beb539459137b7da7a657a58524b341d980a0a510f48",
      "https://rpc.ankr.com/arbitrum/a711c35e9e092e57fed201c2960689957eaf1ad37b7e7ec4eca11accd776e5a9"]),
    Some(42161), 2, Some(ETH), Some(18), Some("https://arbiscan.io"))

  const BscArgs := NetworkArgs(
    "bsc", Url("https://rpc.ankr.com/bsc"),
    Some(56), 0, Some(BNB), Some(18), Some("https://bscscan.com"))

  const OptimismArgs := NetworkArgs(
    "optimism", Url("https://rpc.ankr.com/optimism"),
    Some(10), 2, Some(ETH), Some(18), Some("https://optimistic.etherscan.io"))

  const OpBnbArgs := NetworkArgs(
    "op_bnb",
    Urls([
      "https://opbnb-mainnet-rpc.bnbchain.org",
      "https://opbnb-mainnet.nodereal.io/v1/64a9df0874fb4a93b9d0a3849de012d3",
      "https://opbnb-mainnet.nodereal.io/v1/e9a36765eb8a40b9bd12e680a1fd2bc5",
      "https://opbnb-rpc.publicnode.com"]),
    Some(204), 0, Some(BNB), Some(18), Some("https://mainnet.opbnbscan.com"))

  const PolygonArgs := NetworkArgs(
    "polygon", Url("https://rpc.ankr.com/polygon"),
    Some(137), 2, Some(MATIC), Some(18), Some("https://polygonscan.com"))

  /** The class attributes: attribute name to constructor arguments. */
  const Declared: map<string, NetworkArgs> := map[
    "Ethereum" := EthereumArgs,
    "Arbitrum" := ArbitrumArgs,
    "Bsc" := BscArgs,
    "Optimism" := OptimismArgs,
    "Op_bnb" := OpBnbArgs,
    "Polygon" := PolygonArgs]

  /** A descriptor built from self-contained arguments: the lookups are
      never consulted, so construction cannot fail. */
  function Build(args: NetworkArgs, pick: nat): (n: Network)
    requires SelfContained(args)
    ensures n.chainId == args.chainId.value && n.txType == args.txType
    ensures n.decimals == args.decimals && n.coinSymbol == Some(Upper(args.coinSymbol.value))
    ensures n.name == Lower(args.name) && n.explorer == args.explorer
  {
    SelfContainedNeedsNoLookups(args, pick, Err(RpcError), Err(RpcError), Err(HttpError), Err(HttpError));
    Init(args, Lookups(pick, Err(RpcError), Err(HttpError))).value
  }

  /** `Build` is the constructor, run with failing lookups. */
  lemma BuildIsInit(args: NetworkArgs, pick: nat)
    requires SelfContained(args)
    ensures Init(args, Lookups(pick, Err(RpcError), Err(HttpError))) == Ok(Build(args, pick))
  {
    SelfContainedNeedsNoLookups(args, pick, Err(RpcError), Err(RpcError), Err(HttpError), Err(HttpError));
  }

  /** The expected registry, written independently: name, chain id,
      transaction type and native-coin symbol of every supported chain. */
  const Expected: seq<(string, int, int, string)> := [
    ("ethereum", 1, 2, "ETH"),
    ("arbitrum", 42161, 2, "ETH"),
    ("bsc", 56, 0, "BNB"),
    ("optimism", 10, 2, "ETH"),
    ("op_bnb", 204, 0, "BNB"),
    ("polygon", 137, 2, "MATIC")]

  /** The descriptor `n` carries `entry`'s name, chain id, transaction type
      and symbol, and 18 decimals. */
  predicate Describes(n: Network, entry: (string, int, int, string)) {
    && n.name == entry.0
    && n.chainId == entry.1
    && n.txType == entry.2
    && n.decimals == Some(18)
    && n.coinSymbol == Some(entry.3)
  }

  /** The registry; `pick` is the index each `random.choice` drew when the
      class body ran. Its attributes are exactly the declared ones, and the
      attribute of each supported chain (its capitalized name) holds the
      descriptor of the expected table. */
  function Registry(pick: nat): (reg: map<string, Network>)
    ensures reg.Keys == Declared.Keys
    ensures forall i :: 0 <= i < |Expected| ==>
      Capitalize(Expected[i].0) in reg && Describes(reg[Capitalize(Expected[i].0)], Expected[i])
  {
    DeclaredDescribeExpected(pick);
    map a | a in Declared :: Build(Declared[a], pick)
  }

  /** `Networks.get_network`: the name is capitalized and looked up as a
      class attribute; a miss raises NetworkNotAdded. */
  function GetNetwork(reg: map<string, Network>, name: string): (r: Result<Network>)
    ensures Capitalize(name) in reg ==> r == Ok(reg[Capitalize(name)])
    ensures Capitalize(name) !in reg ==> r == Err(NetworkNotAdded(Capitalize(name)))
  {
    var attr := Capitalize(name);
    if attr in reg then Ok(reg[attr]) else Err(NetworkNotAdded(attr))
  }

  /** The lookup does not depend on the case of the name. */
  lemma GetNetworkIgnoresCase(reg: map<string, Network>, a: string, b: string)
    requires Lower(a) == Lower(b)
    ensures GetNetwork(reg, a) == GetNetwork(reg, b)
  {
    CapitalizeIgnoresCase(a, b);
  }

  /** `name` is found in `reg`, and the descriptor found is the one `entry`
      describes. */
  predicate Lists(reg: map<string, Network>, entry: (string, int, int, string)) {
    GetNetwork(reg, entry.0).Ok? && Describes(GetNetwork(reg, entry.0).value, entry)
  }

  /** The attribute `attr` holds arguments whose fields match `entry`, and
      `attr` is `entry`'s capitalized name. */
  lemma DeclaresEntry(attr: string, args: NetworkArgs, pick: nat, entry: (string, int, int, string))
    requires attr in Declared && Declared[attr] == args && SelfContained(args)
    requires Capitalize(entry.0) == attr && Lower(args.name) == entry.0
    requires args.chainId == Some(entry.1) && args.txType == entry.2
    requires args.decimals == Some(18) && Upper(args.coinSymbol.value) == entry.3
    ensures Capitalize(entry.0) in Declared && Describes(Build(Declared[Capitalize(entry.0)], pick), entry)
  {
  }

  /** The six chains' names and symbols are already in the case the
      constructor gives them. */
  lemma ChainNamesKeepCase()
    ensures Lower("ethereum") == "ethereum" && Lower("arbitrum") == "arbitrum" && Lower("bsc") == "bsc"
    ensures Lower("optimism") == "optimism" && Lower("op_bnb") == "op_bnb" && Lower("polygon") == "polygon"
    ensures Upper("ETH") == "ETH" && Upper("BNB") == "BNB" && Upper("MATIC") == "MATIC"
  {
  }

  /** The attribute each chain's name capitalizes to. */
  lemma ChainAttributes()
    ensures Capitalize("ethereum") == "Ethereum" && Capitalize("arbitrum") == "Arbitrum" && Capitalize("bsc") == "Bsc"
    ensures Capitalize("optimism") == "Optimism" && Capitalize("op_bnb") == "Op_bnb" && Capitalize("polygon") == "Polygon"
  {
    CapitalizeIs("ethereum", "Ethereum");
    CapitalizeIs("arbitrum", "Arbitrum");
    CapitalizeIs("bsc", "Bsc");
    CapitalizeIs("optimism", "Optimism");
    CapitalizeIs("op_bnb", "Op_bnb");
    CapitalizeIs("polygon", "Polygon");
  }

  /** Entry `i` of the expected table is declared, under its capitalized
      name, with arguments that build the descriptor it describes. */
  lemma DeclaredDescribes(i: nat, pick: nat)
    requires i < |Expected|
    ensures Capitalize(Expected[i].0) in Declared
    ensures Describes(Build(Declared[Capitalize(Expected[i].0)], pick), Expected[i])
  {
    ChainNamesKeepCase();
    ChainAttributes();
    match i
    case 0 => DeclaresEntry("Ethereum", EthereumArgs, pick, Expected[0]);
    case 1 => DeclaresEntry("Arbitrum", ArbitrumArgs, pick, Expected[1]);
    case 2 => DeclaresEntry("Bsc", BscArgs, pick, Expected[2]);
    case 3 => DeclaresEntry("Optimism", OptimismArgs, pick, Expected[3]);
    case 4 => DeclaresEntry("Op_bnb", OpBnbArgs, pick, Expected[4]);
    case 5 => DeclaresEntry("Polygon", PolygonArgs, pick, Expected[5]);
  }

  lemma DeclaredDescribeExpected(pick: nat)
    ensures forall i :: 0 <= i < |Expected| ==>
      Capitalize(Expected[i].0) in Declared && Describes(Build(Declared[Capitalize(Expected[i].0)], pick), Expected[i])
  {
    forall i | 0 <= i < |Expected|
      ensures Capitalize(Expected[i].0) in Declared && Describes(Build(Declared[Capitalize(Expected[i].0)], pick), Expected[i])
    {
      DeclaredDescribes(i, pick);
    }
  }

  /** Every supported chain is found under its lower-case name with the
      expected chain id, transaction type, decimals and symbol. */
  lemma RegistryMatchesExpected(pick: nat)
    ensures forall i :: 0 <= i < |Expected| ==> Lists(Registry(pick), Expected[i])
  {
  }

  /** A name outside the registry raises NetworkNotAdded naming the
      capitalized attribute. */
  lemma UnknownNetwork(pick: nat)
    ensures GetNetwork(Registry(pick), "linea") == Err(NetworkNotAdded("Linea"))
  {
    assert Capitalize("linea") == "Linea" by {}
    LineaNotDeclared();
  }

  lemma LineaNotDeclared()
    ensures "Linea" !in Declared
  {
    assert Declared.Keys == {"Ethereum", "Arbitrum", "Bsc", "Optimism", "Op_bnb", "Polygon"};
  }

  /** `BSC`, `Bsc` and `bsc` all name the same descriptor. */
  lemma BscInAnyCase(pick: nat)
    ensures GetNetwork(Registry(pick), "BSC") == GetNetwork(Registry(pick), "bsc")
    ensures GetNetwork(Registry(pick), "Bsc") == GetNetwork(Registry(pick), "bsc")
  {
    assert Lower("BSC") == "bsc" && Lower("Bsc") == "bsc" && Lower("bsc") == "bsc" by {}
    GetNetworkIgnoresCase(Registry(pick), "BSC", "bsc");
    GetNetworkIgnoresCase(Registry(pick), "Bsc", "bsc");
  }
}
