/** `Network`: the descriptor of one chain. Construction lower-cases the
    name, picks one RPC URL, asks the node for the chain id when none is
    given, looks the native coin up in the public chain list when symbol or
    decimals are missing, and upper-cases the symbol. The node's answer, the
    chain list and the random URL choice are inputs. */
module NetworkDescriptor {
  import opened Exceptions
  import opened Wrappers
  import opened Text

  const TxPath := "/tx/"
  const ContractPath := "/contract/"
  const AddressPath := "/address/"

  /** The `rpc` argument: one URL, or a list to pick one from at random. */
  datatype Rpc = Url(url: string) | Urls(urls: seq<string>)

  /** One entry of the public chain list; a field the entry lacks is `None`
      (reading it raises KeyError). */
  datatype ChainEntry = ChainEntry(chainId: Option<int>, symbol: Option<string>, decimals: Option<int>)

  /** The constructor's arguments. */
  datatype NetworkArgs = NetworkArgs(
    name: string,
    rpc: Rpc,
    chainId: Option<int>,
    txType: int,
    coinSymbol: Option<string>,
    decimals: Option<int>,
    explorer: Option<string>)

  /** A constructed descriptor. `chainId` is always known afterwards;
      symbol and decimals stay `None` when the chain list has no entry. */
  datatype Network = Network(
    name: string,
    rpc: string,
    chainId: int,
    txType: int,
    coinSymbol: Option<string>,
    decimals: Option<int>,
    explorer: Option<string>)

  /** What the outside world answers during construction: the index drawn by
      `random.choice`, the node's `eth_chainId` answer and the downloaded
      chain list. */
  datatype Lookups = Lookups(rpcPick: nat, chainIdAnswer: Result<int>, chainList: Result<seq<ChainEntry>>)

  predicate TruthyInt(o: Option<int>) {
    o.Some? && o.value != 0
  }

  predicate TruthyString(o: Option<string>) {
    o.Some? && |o.value| > 0
  }

  /** Constructor arguments with every default: only name and RPC given. */
  function DefaultArgs(name: string, rpc: Rpc): (a: NetworkArgs)
    ensures a.txType == 0
    ensures a.chainId.None? && a.coinSymbol.None? && a.decimals.None? && a.explorer.None?
  {
    NetworkArgs(name, rpc, None, 0, None, None, None)
  }

  /** `rpc if isinstance(rpc, str) else random.choice(rpc)`; choosing from an
      empty list raises IndexError. */
  function ChooseRpc(rpc: Rpc, pick: nat): (r: Result<string>)
    ensures rpc.Url? ==> r == Ok(rpc.url)
    ensures rpc.Urls? && |rpc.urls| == 0 ==> r == Err(IndexError)
    ensures rpc.Urls? && |rpc.urls| > 0 ==> r.Ok? && r.value in rpc.urls
  {
    match rpc
    case Url(u) => Ok(u)
    case Urls(us) => if |us| == 0 then Err(IndexError) else Ok(us[pick % |us|])
  }

  /** `_initialize_chain_id`: a truthy chain id is kept (0 counts as
      missing); otherwise the node is asked, and its failure becomes
      WrongChainId. */
  function InitChainId(chainId: Option<int>, answer: Result<int>): (r: Result<int>)
    ensures TruthyInt(chainId) ==> r == Ok(chainId.value)
    ensures !TruthyInt(chainId) && answer.Ok? ==> r == answer
    ensures !TruthyInt(chainId) && answer.Err? ==> r == Err(WrongChainId)
  {
    if TruthyInt(chainId) then Ok(chainId.value)
    else match answer
      case Ok(c) => Ok(c)
      case Err(_) => Err(WrongChainId)
  }

  /** The entries before `i` all carry a chain id different from `chainId`. */
  ghost predicate NoMatchBefore(entries: seq<ChainEntry>, chainId: int, i: int)
    requires 0 <= i <= |entries|
  {
    forall j :: 0 <= j < i ==> entries[j].chainId.Some? && entries[j].chainId.value != chainId
  }

  /** The loop over the chain list: the first entry whose chain id matches
      gives symbol and decimals. Reading a field an entry lacks raises
      KeyError. */
  function FirstMatch(entries: seq<ChainEntry>, chainId: int): (r: Result<Option<(string, int)>>)
    ensures r.Err? ==> r.error == KeyError
    ensures r.Ok? && r.value.None? ==> NoMatchBefore(entries, chainId, |entries|)
    ensures r.Ok? && r.value.Some? ==>
      exists i :: 0 <= i < |entries| && NoMatchBefore(entries, chainId, i)
        && entries[i] == ChainEntry(Some(chainId), Some(r.value.value.0), Some(r.value.value.1))
  {
    if |entries| == 0 then Ok(None)
    else
      var e := entries[0];
      match e.chainId
      case None => Err(KeyError)
      case Some(c) =>
        if c == chainId then
          match (e.symbol, e.decimals)
          case (Some(s), Some(d)) =>
            assert NoMatchBefore(entries, chainId, 0);
            Ok(Some((s, d)))
          case _ => Err(KeyError)
        else
          var rest := FirstMatch(entries[1..], chainId);
          if rest.Ok? && rest.value.Some? then
            var m := ChainEntry(Some(chainId), Some(rest.value.value.0), Some(rest.value.value.1));
            assert exists i :: 0 <= i < |entries| && NoMatchBefore(entries, chainId, i) && entries[i] == m by {
              var i :| 0 <= i < |entries[1..]| && NoMatchBefore(entries[1..], chainId, i) && entries[1..][i] == m;
              assert NoMatchBefore(entries, chainId, i + 1) && entries[i + 1] == m;
            }
            rest
          else
            rest
  }

  /** `_initialize_coin_symbol_and_decimals`: the lookup is skipped only when
      symbol and decimals are both truthy (decimals 0 triggers it); a missing
      match leaves both as they were; any failure becomes WrongCoinSymbol. */
  function InitCoinMetadata(symbol: Option<string>, decimals: Option<int>, chainId: int, chainList: Result<seq<ChainEntry>>)
    : (r: Result<(Option<string>, Option<int>)>)
    ensures TruthyString(symbol) && TruthyInt(decimals) ==> r == Ok((symbol, decimals))
    ensures !(TruthyString(symbol) && TruthyInt(decimals)) ==>
      && (chainList.Err? ==> r == Err(WrongCoinSymbol))
      && (chainList.Ok? ==> match FirstMatch(chainList.value, chainId)
          case Err(_) => r == Err(WrongCoinSymbol)
          case Ok(None) => r == Ok((symbol, decimals))
          case Ok(Some((s, d))) => r == Ok((Some(s), Some(d))))
  {
    if TruthyString(symbol) && TruthyInt(decimals) then Ok((symbol, decimals))
    else match chainList
      case Err(_) => Err(WrongCoinSymbol)
      case Ok(entries) =>
        match FirstMatch(entries, chainId)
        case Err(_) => Err(WrongCoinSymbol)
        case Ok(None) => Ok((symbol, decimals))
        case Ok(Some((s, d))) => Ok((Some(s), Some(d)))
  }

  /** `_coin_symbol_to_upper`: a truthy symbol is upper-cased. */
  function SymbolToUpper(symbol: Option<string>): (r: Option<string>)
    ensures TruthyString(symbol) ==> r == Some(Upper(symbol.value))
    ensures !TruthyString(symbol) ==> r == symbol
  {
    if TruthyString(symbol) then Some(Upper(symbol.value)) else symbol
  }

  lemma SymbolToUpperIdempotent(symbol: Option<string>)
    ensures SymbolToUpper(SymbolToUpper(symbol)) == SymbolToUpper(symbol)
  {
    if TruthyString(symbol) {
      UpperIdempotent(symbol.value);
    }
  }

  /** `Network.__init__`. */
  function Init(args: NetworkArgs, look: Lookups): (r: Result<Network>)
    ensures r.Ok? ==>
      && r.value.name == Lower(args.name)
      && r.value.txType == args.txType
      && r.value.explorer == args.explorer
      && ChooseRpc(args.rpc, look.rpcPick) == Ok(r.value.rpc)
      && InitChainId(args.chainId, look.chainIdAnswer) == Ok(r.value.chainId)
    ensures ChooseRpc(args.rpc, look.rpcPick).Err? ==> r == Err(IndexError)
    ensures ChooseRpc(args.rpc, look.rpcPick).Ok? && !TruthyInt(args.chainId) && look.chainIdAnswer.Err? ==>
      r == Err(WrongChainId)
    ensures TruthyString(args.coinSymbol) && TruthyInt(args.decimals) && r.Ok? ==>
      r.value.coinSymbol == Some(Upper(args.coinSymbol.value)) && r.value.decimals == args.decimals
    ensures r.Ok? && !(TruthyString(args.coinSymbol) && TruthyInt(args.decimals)) ==> look.chainList.Ok?
    ensures ChooseRpc(args.rpc, look.rpcPick).Ok? && InitChainId(args.chainId, look.chainIdAnswer).Ok? ==>
      var meta := InitCoinMetadata(args.coinSymbol, args.decimals, InitChainId(args.chainId, look.chainIdAnswer).value, look.chainList);
      && (meta.Err? ==> r == Err(WrongCoinSymbol))
      && (meta.Ok? ==> r.Ok? && r.value.coinSymbol == SymbolToUpper(meta.value.0) && r.value.decimals == meta.value.1)
  {
    var name := Lower(args.name);
    var rpc :- ChooseRpc(args.rpc, look.rpcPick);
    var chainId :- InitChainId(args.chainId, look.chainIdAnswer);
    var meta :- InitCoinMetadata(args.coinSymbol, args.decimals, chainId, look.chainList);
    Ok(Network(name, rpc, chainId, args.txType, SymbolToUpper(meta.0), meta.1, args.explorer))
  }

  /** Arguments that need nothing from the outside world: a known chain id,
      symbol and decimals, and at least one URL. */
  predicate SelfContained(args: NetworkArgs) {
    && TruthyInt(args.chainId)
    && TruthyString(args.coinSymbol)
    && TruthyInt(args.decimals)
    && (args.rpc.Urls? ==> |args.rpc.urls| > 0)
  }

  /** Self-contained arguments construct successfully whatever the node and
      the chain list would answer: neither is consulted. */
  lemma SelfContainedNeedsNoLookups(args: NetworkArgs, pick: nat, a1: Result<int>, a2: Result<int>,
                                    l1: Result<seq<ChainEntry>>, l2: Result<seq<ChainEntry>>)
    requires SelfContained(args)
    ensures Init(args, Lookups(pick, a1, l1)).Ok?
    ensures Init(args, Lookups(pick, a1, l1)) == Init(args, Lookups(pick, a2, l2))
  {
  }

  /** A zero chain id counts as missing: the node is asked. */
  lemma ZeroChainIdIsQueried(args: NetworkArgs, look: Lookups)
    requires args.chainId == Some(0)
    requires Init(args, look).Ok?
    ensures look.chainIdAnswer.Ok? && Init(args, look).value.chainId == look.chainIdAnswer.value
  {
  }

  /** Zero decimals count as missing: the chain list is consulted, and the
      first entry carrying the chain id supplies both fields, the symbol
      upper-cased. */
  lemma ZeroDecimalsTriggerLookup(args: NetworkArgs, look: Lookups, i: nat, s: string, d: int)
    requires args.decimals == Some(0)
    requires ChooseRpc(args.rpc, look.rpcPick).Ok? && TruthyInt(args.chainId)
    requires look.chainList.Ok? && i < |look.chainList.value|
    requires NoMatchBefore(look.chainList.value, args.chainId.value, i)
    requires look.chainList.value[i] == ChainEntry(args.chainId, Some(s), Some(d))
    ensures Init(args, look) == Ok(Network(Lower(args.name), ChooseRpc(args.rpc, look.rpcPick).value,
      args.chainId.value, args.txType, Some(Upper(s)), Some(d), args.explorer))
  {
    FirstMatchFindsFirst(look.chainList.value, args.chainId.value, i);
  }

  /** When the lookup runs, a chain list that cannot be read, or an entry
      before the match that lacks a field, fails construction with
      WrongCoinSymbol. */
  lemma LookupFailureIsWrongCoinSymbol(args: NetworkArgs, look: Lookups)
    requires ChooseRpc(args.rpc, look.rpcPick).Ok? && InitChainId(args.chainId, look.chainIdAnswer).Ok?
    requires !(TruthyString(args.coinSymbol) && TruthyInt(args.decimals))
    requires look.chainList.Err? || FirstMatch(look.chainList.value, InitChainId(args.chainId, look.chainIdAnswer).value).Err?
    ensures Init(args, look) == Err(WrongCoinSymbol)
  {
  }

  /** The lookup returns the first matching entry. */
  lemma {:induction false} FirstMatchFindsFirst(entries: seq<ChainEntry>, chainId: int, i: nat)
    requires i < |entries| && NoMatchBefore(entries, chainId, i)
    requires entries[i].chainId == Some(chainId) && entries[i].symbol.Some? && entries[i].decimals.Some?
    ensures FirstMatch(entries, chainId) == Ok(Some((entries[i].symbol.value, entries[i].decimals.value)))
  {
    if i > 0 {
      assert entries[0].chainId.Some? && entries[0].chainId.value != chainId;
      FirstMatchFindsFirst(entries[1..], chainId, i - 1);
    }
  }
}
