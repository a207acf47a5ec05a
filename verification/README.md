# zk-bridge minter: a Dafny model

This project models the decision logic of the zk-bridge minting bot, a Python program. The bot mints the "Polyhedra 2024" NFT on six EVM chains for a list of wallets.

Every call into a node, the network or the operating system becomes an input of the model:
- nonce, gas price, priority-fee suggestion, gas estimate, block reads, sending, the receipt wait;
- signing, key derivation and key creation;
- the EIP-55 checksum;
- the chain-list download and the proxy IP probe;
- random draws.

What remains is sequential map, integer and string logic, stated as pure functions over immutable datatypes, with the properties proved about them.

The modules follow the program's files:

| module | file | what it holds |
|---|---|---|
| `Exceptions`, `Wrappers` | `exceptions.dfy` | the exceptions raised, `Option` and `Result` |
| `Decimals` | `decimals.dfy` | exact decimals `Dec(mant, scale)` and truncation to an integer (`int()`) |
| `Text` | `text.dfy` | ASCII case mapping, substring search, `rstrip`, integer text, hexadecimal text |
| `Values` | `values.dfy` | dictionary values, Python truthiness, `int()` and `+` on them |
| `Sorting` | `sorting.dfy` | the ascending sort and element counts used by the median |
| `Constants`, `Settings` | `constants.dfy`, `settings.dfy` | coin symbols, log levels and user settings |
| `TokenAmounts` | `token_amount.dfy` | `TokenAmount` |
| `NetworkDescriptor`, `Networks` | `network.dfy`, `networks.dfy` | `Network` and the `Networks` registry |
| `TxHandle` | `tx.dfy` | `Tx` |
| `Transactions` | `transaction.dfy` | `Transaction` |
| `Contracts` | `contract.dfy` | `Contract` |
| `AccountManagers` | `account_manager.dfy` | `AccountManager` |
| `Logging` | `logger.dfy` | `CustomLogger` and its formatters |
| `Helpers` | `helpers.dfy` | `retry`, `delay`, `format_output` |
| `ZkBridge` | `zk_bridge.dfy` | `ZkBridge.mint` |
| `Launcher` | `launcher.dfy` | `main.py` |

The centre of the model is `Transactions.AutoAddParams`, the completion of a transaction-parameter dictionary before signing. Its steps are:
1. fill `chainId`;
2. fill `nonce`;
3. fill `from`;
4. choose between a legacy `gasPrice` and an EIP-1559 fee cap;
5. add the priority fee;
6. drop `multiplier`;
7. estimate `gas`.

Each step is its own function. A `Trace` of the intermediate dictionaries lets the lemmas state what the completed dictionary holds in terms of the caller's input alone:
- the identity fields;
- the fee fields;
- the gas limit;
- every key outside the managed set.

Amounts are exact decimals. A float argument is taken at its shortest decimal text, which is the value `Decimal(str(x))` sees; the base-unit `Wei` differs from this for large floats (see "## Left out"). `Wei` is an unbounded `int`.

## Model

| member | source | states |
|---|---|---|
| TokenAmounts.New | min_library/models/others/token_amount.py:20-50 | Fails with TypeError exactly when `decimals` is negative. Otherwise `decimals` is stored as given and `GWei` exists exactly when `set_gwei` is set. In base units: `Wei` is the amount truncated, `Ether` is the amount divided by 10^decimals, and `GWei` is the amount divided by 10^9, truncated. In coins: `Ether` is the amount, `Wei` is trunc(amount × 10^decimals), and `GWei` is trunc(amount × 10^9). |
| TokenAmounts.FromWei | min_library/models/others/token_amount.py:37-42 | The base-unit branch: `Wei` = trunc(amount), `Ether` = amount / 10^decimals over exact decimals, and `GWei` (only with `set_gwei`) = trunc(amount / 10^9). |
| TokenAmounts.FromCoins | min_library/models/others/token_amount.py:43-48 | The coin branch: `Ether` is the amount itself, `Wei` = trunc(amount × 10^decimals), and `GWei` (only with `set_gwei`) = trunc(amount × 10^9), over exact decimals. |
| TokenAmounts.NewOnNetwork | min_library/models/others/token_amount.py:37-50 | With decimals read from a network that never resolved them (`None`), construction raises TypeError. Otherwise it is the constructor. |
| TokenAmounts.ToString | min_library/models/others/token_amount.py:52-60 | `str(amount)` is decimal text that parses back to exactly `Wei`. |
| TokenAmounts.WeiEtherRoundTrip | min_library/models/others/token_amount.py:38-44 | For every integer w and decimals d ≥ 0, building from w base units and then from the resulting `Ether` in coins gives back `Wei == w`. |
| TokenAmounts.GweiIgnoresDecimals | min_library/models/others/token_amount.py:47-48 | In coins, `GWei` is the same whatever `decimals` is. |
| TokenAmounts.CoinAmountGwei | min_library/models/others/token_amount.py:47-48 | A coin amount built with `set_gwei` succeeds for any decimals ≥ 0 and carries `GWei` = trunc(amount × 10^9). |
| NetworkDescriptor.DefaultArgs | min_library/models/network/network.py:15-23 | Only name and RPC given: `tx_type` is 0 and chain id, symbol, decimals and explorer are None. |
| NetworkDescriptor.ChooseRpc | min_library/models/network/network.py:26 | A single URL is kept. A non-empty list gives one of its members. An empty list raises IndexError. |
| NetworkDescriptor.InitChainId | min_library/models/network/network.py:37-43 | A truthy chain id is kept; 0 and None count as missing. A missing one is the node's answer, and a failed query becomes WrongChainId. |
| NetworkDescriptor.FirstMatch | min_library/models/network/network.py:51-55 | A result is taken from an entry that matches and is preceded only by entries with other chain ids. No result means no entry matches. An entry lacking a read field raises KeyError. |
| NetworkDescriptor.FirstMatchFindsFirst | min_library/models/network/network.py:51-55 | If entry i is the first match, the lookup returns entry i's symbol and decimals. |
| NetworkDescriptor.InitCoinMetadata | min_library/models/network/network.py:45-58 | The lookup is skipped only when symbol and decimals are both truthy. A match sets both. No match leaves both unchanged. A failed download or a failing read raises WrongCoinSymbol. |
| NetworkDescriptor.SymbolToUpper | min_library/models/network/network.py:60-62 | A truthy symbol is upper-cased; anything else is left alone. |
| NetworkDescriptor.SymbolToUpperIdempotent | min_library/models/network/network.py:60-62 | Upper-casing the symbol twice is the same as once. |
| NetworkDescriptor.Init | min_library/models/network/network.py:15-58 | The constructor lower-cases the name and keeps `tx_type` and explorer. The rpc and chain id come from the steps above, and their failures propagate. Symbol and decimals are what the coin step gives, the symbol upper-cased when truthy: the given ones when both are truthy, else the first matching chain-list entry's, else the given ones again. When the coin step fails, construction fails with WrongCoinSymbol. |
| NetworkDescriptor.SelfContainedNeedsNoLookups | min_library/models/network/network.py:37-47 | With a truthy chain id, symbol and decimals and at least one URL, construction succeeds. Its result does not depend on what the node or the chain list would answer. |
| NetworkDescriptor.ZeroChainIdIsQueried | min_library/models/network/network.py:37-41 | A chain id of 0 is replaced by the node's answer. |
| NetworkDescriptor.ZeroDecimalsTriggerLookup | min_library/models/network/network.py:45-58 | Decimals of 0 trigger the lookup even with a symbol given. Whatever symbol and decimals the first entry carrying the chain id holds, the descriptor gets that symbol upper-cased and those decimals. |
| NetworkDescriptor.LookupFailureIsWrongCoinSymbol | min_library/models/network/network.py:45-58 | When the lookup runs, an unreadable chain list or an entry lacking a field before the match makes construction fail with WrongCoinSymbol. |
| Networks.Build | min_library/models/network/networks.py:10-76 | A descriptor built from the fixed arguments carries their chain id, `tx_type`, decimals and explorer, the lower-cased name and the upper-cased symbol. |
| Networks.Registry | min_library/models/network/networks.py:8-76 | The registry has exactly the six class attributes. Each expected chain sits under its capitalized name, with the expected name, chain id, `tx_type`, 18 decimals and symbol. |
| Networks.GetNetwork | min_library/models/network/networks.py:79-90 | The name is capitalized and looked up. A miss raises NetworkNotAdded with the capitalized name. |
| Networks.GetNetworkIgnoresCase | min_library/models/network/networks.py:83-90 | Two names that agree when lower-cased find the same result. |
| Networks.BscInAnyCase | min_library/models/network/networks.py:83-90 | `BSC`, `Bsc` and `bsc` find the same descriptor. |
| Networks.RegistryMatchesExpected | min_library/models/network/networks.py:10-76 | Each chain is found under its lower-case name (`op_bnb` included), with its name, chain id (1, 42161, 56, 10, 204, 137), `tx_type` (2, 2, 0, 2, 0, 2), 18 decimals and symbol. The expected values are checked against a table written separately. |
| Networks.UnknownNetwork | min_library/models/network/networks.py:85-88 | An unlisted chain (`linea`) raises NetworkNotAdded naming `Linea`. |
| TxHandle.New | min_library/models/transactions/tx.py:33-57 | Raises TransactionException exactly when both hash and params are falsy. Hash text is converted to bytes (invalid text raises ValueError), and bytes are stored as given. Params are stored unchanged. Receipt, function identifier and input data start empty. |
| TxHandle.TextHashMatchesBytes | min_library/models/transactions/tx.py:50-53 | The hexadecimal text of a hash, with or without `0x`, gives the same handle as the hash bytes. |
| TxHandle.WaitForReceipt | min_library/models/transactions/tx.py:77-81 | The node's receipt is stored in the handle and returned as the same value, and nothing else in the handle changes. A failed wait propagates. |
| Contracts.GetContractAttributes | min_library/models/contracts/contract.py:18-39 | The address is checksummed, and a rejected address fails. A bare address comes with no ABI; an object gives its own ABI. |
| Contracts.AttributesOfAddressAndObject | min_library/models/contracts/contract.py:32-39 | An object without an ABI gives exactly what its bare address gives. With any ABI, the object succeeds exactly when its bare address does, with the same checksummed address. |
| Contracts.Get | min_library/models/contracts/contract.py:41-71 | Raises ValueError exactly when neither the explicit ABI nor the reference's own is truthy. A truthy explicit ABI takes precedence, and the address is the checksummed one. |
| Contracts.AddMultiplierOfGas | min_library/models/contracts/contract.py:81-88 | The given value, even None, is written under `multiplier`, and no other key changes. |
| Contracts.SetGasPrice | min_library/models/contracts/contract.py:90-113 | A number x sets `gasPrice` = trunc(x × 10^9), or raises TypeError when the network's decimals are unusable. An amount sets its `GWei`, and raises AttributeError when it has none. |
| Contracts.SetGasLimit | min_library/models/contracts/contract.py:115-138 | An integer sets `gas` to itself, or raises TypeError when the decimals are unusable. An amount sets `gas` to its `Wei`. |
| Contracts.SetGasPriceNumberMatchesAmount | min_library/models/contracts/contract.py:106-112 | A number and the amount built from it with `set_gwei` set the same `gasPrice`. |
| Contracts.SetGasLimitIntMatchesAmount | min_library/models/contracts/contract.py:131-137 | An integer limit and its base-unit amount set the same `gas`. |
| Transactions.GetNonce | min_library/models/transactions/transaction.py:18-34 | A falsy address falls back to the signer's address, and a truthy one is queried as given. A truthy non-text address is rejected with TypeError. |
| Transactions.NonceDefaultsToSigner | min_library/models/transactions/transaction.py:30-34 | Every falsy address, and the signer's own address given explicitly, gives the same answer as no address: the signer's nonce. |
| Transactions.WeiAnswer | min_library/models/transactions/transaction.py:36-50 | A node answer wrapped as a base-unit amount succeeds exactly when the node answered and the decimals are usable, and then gives back the same integer. |
| Transactions.WeiAnswerIsTokenAmount | min_library/models/transactions/transaction.py:44-50 | The wrapped answer is the `Wei` of the `TokenAmount` built from it, or fails with that construction's error. |
| Transactions.FillChainId | min_library/models/transactions/transaction.py:147-148 | `chainId` is added only when the key is absent. |
| Transactions.FillNonce | min_library/models/transactions/transaction.py:150-151 | A truthy nonce is kept. A missing or falsy one (0 included) becomes the signer's fetched nonce, or the step fails when the query does. |
| Transactions.FillFrom | min_library/models/transactions/transaction.py:153-154 | `from` is added only when the key is absent. |
| Transactions.FeeStep | min_library/models/transactions/transaction.py:156-163 | On type 2, `gasPrice` is removed and `maxFeePerGas` becomes the caller's `gasPrice` or the current price, overwriting any cap. Elsewhere `gasPrice` is kept, or set to the current price when missing. |
| Transactions.PriorityStep | min_library/models/transactions/transaction.py:165-167 | Acts only when there is a cap and no priority fee. The priority fee becomes the node's suggestion, and the cap grows by exactly that amount. Otherwise the dictionary is unchanged. |
| Transactions.ScaleGas | min_library/models/transactions/transaction.py:173 | `int(estimate * multiplier)`: an integer multiplies, a number multiplies and truncates, and None raises TypeError. |
| Transactions.NeedsEstimate | min_library/models/transactions/transaction.py:171 | Estimation is needed when `gas` is missing or falsy, or converts to 0. A value that does not convert raises. |
| Transactions.GasStep | min_library/models/transactions/transaction.py:169-173 | `multiplier` is always removed. A set gas limit is kept. Otherwise `gas` is the estimate of the remaining dictionary, scaled by the multiplier (default 1). |
| Transactions.FillChainIdKeepsOthers | min_library/models/transactions/transaction.py:147-148 | The chain-id step changes no key but `chainId`. |
| Transactions.FillNonceKeepsOthers | min_library/models/transactions/transaction.py:150-151 | A nonce step that succeeds changes no key but `nonce`. |
| Transactions.FillFromKeepsOthers | min_library/models/transactions/transaction.py:153-154 | The sender step changes no key but `from`. |
| Transactions.FeeStepKeepsOthers | min_library/models/transactions/transaction.py:156-163 | The fee step changes no key but `gasPrice` and `maxFeePerGas`. |
| Transactions.PriorityStepKeepsOthers | min_library/models/transactions/transaction.py:165-167 | A priority step that succeeds changes no key but `maxFeePerGas` and `maxPriorityFeePerGas`. |
| Transactions.GasStepKeepsOthers | min_library/models/transactions/transaction.py:169-173 | A gas step that succeeds changes no key but `multiplier` and `gas`. |
| Transactions.AutoAddParams | min_library/models/transactions/transaction.py:135-175 | A completed dictionary has no `multiplier`. Completion needs the current gas price (queried every time), and fails without it. |
| Transactions.AutoAddKeepsOtherKeys | min_library/models/transactions/transaction.py:147-175 | Keys outside chainId, nonce, from, gasPrice, maxFeePerGas, maxPriorityFeePerGas, multiplier and gas come out exactly as they went in. |
| Transactions.AutoAddIdentityFields | min_library/models/transactions/transaction.py:147-154 | The completed `chainId` and `from` are the caller's when the key was present (even holding None), else the network's chain id and the signer. `nonce` is the caller's when truthy, else the fetched nonce. |
| Transactions.AutoAddFees | min_library/models/transactions/transaction.py:156-167 | On type 2 there is no `gasPrice` and there is always a cap. Elsewhere `gasPrice` is the caller's or the current price. A cap without a caller's priority fee (on a legacy network, a caller's cap) gets the suggestion added on top. A caller's priority fee is kept. Without a cap, nothing is added. |
| Transactions.AutoAddGas | min_library/models/transactions/transaction.py:169-173 | A set `gas` is kept. Otherwise `gas` is the estimate of the completed dictionary as the caller's `gas` left it, scaled by the caller's multiplier. A `gas` that does not convert fails. |
| Transactions.Type2Fees | min_library/models/transactions/transaction.py:156-167 | On type 2 the result has a cap and a priority fee and no `gasPrice`. The cap is the current price plus the suggestion when the caller gave neither price nor priority fee, and just the current price when only a priority fee was given. |
| Transactions.Type2RerunResetsCap | min_library/models/transactions/transaction.py:159-167 | Completing a type-2 dictionary twice is not idempotent. The first cap is price plus suggestion, and the second is the bare price. |
| Transactions.LegacyRerunIsStable | min_library/models/transactions/transaction.py:147-175 | On a legacy network, completing a completed dictionary whose gas limit is set changes nothing. |
| Transactions.LegacyFixedPoint | min_library/models/transactions/transaction.py:147-175 | A legacy dictionary passes every step unchanged when it holds the identity fields, a price and a set gas limit, has no multiplier, and any cap it has comes with a priority fee. |
| Transactions.AutoAddSucceeds | min_library/models/transactions/transaction.py:135-175 | A dictionary without managed keys is completed whenever the node answers and the decimals are usable. |
| Transactions.CollectFees | min_library/models/transactions/transaction.py:71-85 | The fees collected are exactly the `maxPriorityFeePerGas` values of the reads that returned one, each as many times as it was read. Failed reads and transactions without the key are skipped. |
| Transactions.CollectFeesAppend | min_library/models/transactions/transaction.py:71-85 | Collecting keeps block order: the fees of a walk split in two are those of the first part followed by those of the second. |
| Sorting.Sort | min_library/models/transactions/transaction.py:91 | The ascending sort is sorted and a permutation of its input. |
| Transactions.MedianFee | min_library/models/transactions/transaction.py:87-93 | 0 for no fees. Otherwise a member of the list with at least n//2 + 1 values at or below it and at least n − n//2 at or above it. |
| Transactions.MedianIgnoresOrder | min_library/models/transactions/transaction.py:91-93 | The median depends only on the multiset of fees, not on block order. |
| Transactions.MedianOfWalk | min_library/models/transactions/transaction.py:71-98 | Given the transaction reads, succeeds exactly when the decimals are usable. The result is the median of the collected fees (`MedianFee`): 0 when no transaction carries a priority fee, and otherwise one of the fees read. |
| Transactions.MedianOfWalkIgnoresOrder | min_library/models/transactions/transaction.py:71-98 | Two blocks whose transactions carry the same priority fees, in any order and with any other reads between them, give the same fee. |
| Transactions.ShuffledWalkSameFee | min_library/models/transactions/transaction.py:71-98 | Reading the same transactions in any other order gives the same fee. |
| Transactions.BlockToWalk | min_library/models/transactions/transaction.py:63-70 | A falsy `block` (None or empty) is replaced by the latest block, whose failure propagates. A block without `number` raises KeyError. The count query's failure propagates. On success the walk runs over the chosen block's number and the count the node gave for it. |
| Transactions.MedianPriorityFee | min_library/models/transactions/transaction.py:52-98 | Succeeds exactly when the block and count reads succeed and the decimals are usable; a read failure is the function's failure. The result is the median fee of the walk over the chosen block. |
| Transactions.GivenBlockIgnoresLatest | min_library/models/transactions/transaction.py:54-63 | A truthy block passed by the caller is used as given: the latest-block answer does not matter. |
| Transactions.FalsyBlockReadsLatest | min_library/models/transactions/transaction.py:63-64 | None, an empty dictionary and the latest block itself give the same fee. |
| Transactions.SignAndSend | min_library/models/transactions/transaction.py:193-211 | Succeeds exactly when completion, signing and sending do. The handle holds the completed parameters and the hash the node returned, and has no receipt yet. |
| AccountManagers.NormaliseProxy | min_library/models/account/account_manager.py:54-55 | `http://` is prefixed exactly when `http` does not occur in the proxy, and the result always contains `http`. |
| AccountManagers.NormaliseProxyIdempotent | min_library/models/account/account_manager.py:54-55 | Normalising twice is normalising once. |
| AccountManagers.InitProxy | min_library/models/account/account_manager.py:50-67 | No proxy (or an empty one) is left unchecked. Otherwise it is normalised. With checking on, it passes exactly when the observed IP (trailing whitespace stripped) occurs in it, and otherwise raises InvalidProxy with that IP. A failed probe propagates. |
| AccountManagers.InitProxyStable | min_library/models/account/account_manager.py:50-67 | A proxy that passed passes again unchanged. |
| AccountManagers.InitAccount | min_library/models/account/account_manager.py:88-99 | A non-empty key derives an account and fails when derivation does. `''` gives no account. None gives the fresh account. |
| AccountManagers.New | min_library/models/account/account_manager.py:31-86 | The proxy is settled first and its failure wins. An empty key then ends in AttributeError at the logger. A success has the account `_initialize_account` gives for the key, and its logger carries the account id, the address and the capitalized network name. No key always succeeds after a good proxy. |
| AccountManagers.NewSucceedsIff | min_library/models/account/account_manager.py:50-99 | Construction succeeds exactly when the proxy passes and the key is absent or non-empty and derivable. |
| AccountManagers.LoggerLabelIgnoresCase | min_library/models/account/account_manager.py:84 | The logger's network label does not depend on the case of the network name. |
| Logging.FormatTemplate | min_library/models/logger/logger.py:167-176 | A template exists exactly for the levels in FORMATS. It starts with the time field followed by the level's colour and contains the padded level name. Any other level raises UnboundLocalError. |
| Logging.FormattedLevels | min_library/models/logger/logger.py:158-165 | Exactly DEBUG, INFO, WARNING, SUCCESS, ERROR and MINTED have a template; DELAY, CRITICAL and BRIDGED do not. |
| Logging.FormatMessage | min_library/models/logger/logger.py:128-135 | A message not starting with the root is unchanged. One continuing below the root becomes the relative path: the same segments, in normal form (no empty or `.` segments, normalising again changes nothing). The root itself becomes `.`. |
| Logging.NormaliseIdempotent | min_library/models/logger/logger.py:130-133 | Normalising keeps the segments, and normalising twice is normalising once. |
| Logging.CallerFileIsShortened | min_library/models/logger/logger.py:128-135 | A file below the root, written in clean segments, is shown as its path relative to the root. |
| Logging.AsWrittenLinkLosesASlash | min_library/models/logger/logger.py:128-135 | As written, the rewriting reaches the message text: `https://e` after the caller's line becomes `https:/e`. |
| Logging.FormatRecord | min_library/models/logger/logger.py:97-100 | With only the caller's file made relative, the rendered text starts with that file, the line and ` - `, and ends with the message unchanged. |
| Logging.FormatRecordKeepsLink | min_library/models/logger/logger.py:97-135 | With the correction, the same record shows the relative file and keeps the link's `//`. |
| Logging.InitMainLog | min_library/models/logger/logger.py:43-73 | The main logger is created only when `main_logger` is not cached, and the cached one is returned otherwise. |
| Logging.InitAccountLog | min_library/models/logger/logger.py:75-95 | An account logger is created once per id and cached. |
| Logging.LoggersAreCached | min_library/models/logger/logger.py:43-95 | A second request returns the same logger and leaves the cache as the first left it. |
| Logging.AccountNamedMainLoggerGetsMainLogger | min_library/models/logger/logger.py:43-95 | Main and account loggers share one dictionary, so an account named `main_logger` gets the main logger. |
| Logging.LevelNumber | min_library/models/logger/logger.py:107-119 | A number exactly for the names `getLevelName` resolves (the standard names, WARN, FATAL, SUCCESS and MINTED): NOTSET is 0 and only NOTSET, and every other lies in 10..50, at or above the loggers' DEBUG. Names outside the table have no number. |
| Logging.LevelAliases | min_library/models/logger/logger.py:107-119 | WARN logs at WARNING's 30 and FATAL at CRITICAL's 50. |
| Logging.LogMessageTo | min_library/models/logger/logger.py:43-120 | Every record carries `<file>:<line> - ` + message at the level's number. Records go to the main logger, and to the account logger only with per-account files. A level below the loggers' DEBUG (NOTSET) creates no record, though the loggers are still created. A name with no level number raises TypeError. |
| Logging.LevelNamesLogAlike | min_library/models/logger/logger.py:107-119 | WARN and FATAL log exactly as WARNING and CRITICAL; NOTSET succeeds without a record. |
| Helpers.Center | min_library/utils/helpers.py:24-25 | The result is as wide as the width, or the message when longer. The message sits unchanged between space runs, and the odd pad column goes to the right. |
| Helpers.FormatOutput | min_library/utils/helpers.py:24-25 | A message of at most 80 characters is centred to exactly 80; a longer one is printed as is. |
| Helpers.RandInt | min_library/utils/helpers.py:50 | The draw lies in the inclusive range. An empty range raises ValueError. |
| Helpers.RandIntReachesEveryValue | min_library/utils/helpers.py:50 | Every value of the range is drawn by some draw. |
| Helpers.Delay | min_library/utils/helpers.py:44-55 | The pause is a whole number of seconds in [sleep_from, sleep_to]. The line logged names it and the message. An empty range raises ValueError. |
| Helpers.RetryPause | min_library/utils/helpers.py:38 | A pause between retries lasts 10 to 60 seconds. |
| Helpers.Retry | min_library/utils/helpers.py:28-41 | At most RETRY_COUNT calls. The result is the first successful call's and no call follows it. Each failed call before it is followed by one pause naming the retry. When all fail, the result is None after RETRY_COUNT pauses. |
| Helpers.AllFailingCallsGiveNone | min_library/utils/helpers.py:32-41 | When every call fails, the wrapper returns None. |
| Launcher.IsBotSetupToStart | main.py:45-60 | Start exactly when there are keys and, with names required, as many names as keys. The complaint is the first failing check's: no keys, no names, or different counts. |
| Launcher.GetAccounts | main.py:84-100 | Named mode pairs the i-th name with the i-th key, as far as both lists go. Id mode numbers the keys from 1 in order. |
| Launcher.RunAccounts | main.py:122-132 | Wallets are run in order until one raises. That exception ends the loop, is what `main` raises, and no later wallet is run. A pause follows a wallet that returned exactly when sleeping is on, the wallet differs from the last one and the result is truthy. Its length lies in the configured range. |
| Launcher.NoPauseAfterLast | main.py:131-132 | The last wallet, and any wallet equal to it, is never followed by a pause. |
| Launcher.MintModuleAsWritten | settings/modules_settings.py:14-15 | The mint module returns None whatever the routine achieved. |
| Launcher.AsWrittenNeverPausesBetweenAccounts | settings/modules_settings.py:14-15 | With the module as written, no wallet is ever followed by the pause between accounts. |
| Launcher.MintModule | settings/modules_settings.py:14-18 | The corrected module returns the routine's boolean result. |
| Launcher.PausesBetweenAccountsIffMinted | main.py:128-132 | With the corrected module, a wallet is followed by a pause exactly when the routine reported a mint and the wallet is not equal to the last. |
| ZkBridge.MintParams | tasks/zk_bridge.py:41-58 | An unknown NFT or network raises KeyError. Otherwise `to` is the checksummed table address and `data` is `0x1249c58b`. `gasPrice` is added only on the networks in GAS_PRICE_DICT, as trunc(price × 10^9), and needs usable decimals. |
| ZkBridge.SentTx | tasks/zk_bridge.py:41-62 | Parameter errors propagate, and a sent transaction implies the parameters resolved. |
| ZkBridge.MintBody | tasks/zk_bridge.py:40-78 | Send and receipt errors propagate, and an empty receipt gives no message. A non-empty one on a network without explorer raises TypeError. A message is the MINTED text with explorer + `/tx/` + the hash in hexadecimal. |
| ZkBridge.Mint | tasks/zk_bridge.py:35-85 | Never raises. True with a MINTED line exactly when the body produced a message. False with an ERROR line carrying the exception when it raised. False silently on an empty receipt. |
| ZkBridge.MintSucceedsIff | tasks/zk_bridge.py:35-85 | A mint reports success exactly when the transaction was sent, the receipt is non-empty and the network has an explorer. |
| ZkBridge.MintedLinkNamesTheHash | tasks/zk_bridge.py:68-78 | The MINTED line consists of the fixed text, the explorer and `/tx/`, followed by hexadecimal that decodes to exactly the sent hash. |
| ZkBridge.MintNetworksAreTheDeclaredOnes | tasks/zk_bridge.py:10-22 | The NFT's networks are exactly the registry's six names. |
| ZkBridge.ForcedGasPrices | tasks/zk_bridge.py:24-27 | BSC is forced to 10^9 and opBNB to 20000 (0.00002 gwei). |
| ZkBridge.OtherNetworksHaveNoGasPrice | tasks/zk_bridge.py:47-58 | Elsewhere the parameters are exactly `to` and `data`. |
| ZkBridge.UnknownNftIsLoggedError | tasks/zk_bridge.py:40-85 | An unknown NFT gives False with an ERROR line for the KeyError. |

## Left out

- Node and network calls are inputs, not models: the nonce, gas price, priority-fee suggestion, gas estimate, block and transaction reads, `send_raw_transaction` and the receipt wait (`Node`, `BlockNode`, `Client`, `TxRead`).
- Signing, key derivation and key creation are inputs: `sign`, `World.fromKey` and `World.created`. So is the `extra_entropy` draw.
- The EIP-55 checksum needs Keccak-256, so it is a given function (`Contracts.Checksum`) that may reject its input.
- The HTTP downloads are inputs: the chain list and the proxy IP probe. Request headers, `UserAgent` and the web3 provider and middleware carry no state the modelled code reads.
- Randomness is given as draws. `random.choice` takes the drawn index modulo the list length, and `random.randint` reduces the draw into the range. `random.shuffle` is represented by passing the wallets already in shuffled order.
- Sleeps are recorded as `Sleep` values and never awaited; asyncio scheduling is not modelled.
- `Contract.get_decimals` (min_library/models/contracts/contract.py:73-79) is a contract call whose answer the model would only pass through.
- `sign_transaction` is the given `sign` function. The `w3.eth.contract` object that `get` returns is described only by its address and ABI.
- `settings/modules_settings.py` beyond its first function, and `min_library/models/client.py`, are orchestration. They shuffle networks, draw one, build a client and sleep. They are not part of this model; only the returned value of `mint_polyhedra_2024_nft` is (see Findings).
- `main.py`'s console pieces are not modelled: `greetings`, `get_module`, `end_of_work` and `measure_time_for_all_work` (floating-point timing). Neither are `read_txt` and `load_json` in the helpers.
- Logging output is not modelled:
  - handlers, log files and the folder they go in;
  - rendering of `%(...)` fields;
  - `ConsoleLoggerSingleton`;
  - the colour codes beyond their use in the templates.
  The caller's file and line are parameters of `Logging.LogMessageTo`.
- TokenAmounts.New: the model divides and multiplies exactly. The source computes `Ether` in the base-unit branch and `Wei` and `GWei` in the coin branch in `Decimal`'s default context, which keeps 28 significant digits. Amounts with more digits are rounded there, e.g. 10^28 + 1 base units. This holds for `TokenAmounts.FromWei`, `TokenAmounts.FromCoins` and every member built on them.
- TokenAmounts.FromWei: `GWei` is the exact quotient by 10^9, truncated. The source divides in floating point, which can round differently once the amount exceeds 2^53. `Wei` is the decimal amount truncated, while the source's `int(amount)` truncates a float's binary value: `int(1e25)` is 10000000000000000905969664, where the model gives 10^25.
- TokenAmounts.New: amounts are numbers only. The signature also admits text, where `int("1.5")` raises ValueError in the base-unit branch and `amount / 10**9` raises TypeError with `set_gwei`; the program passes numbers only.
- Transactions.GetNonce: a truthy address that is not text stands for the node rejecting it, as TypeError; the source's annotation admits only addresses and None.
- Transactions.ScaleGas: a float multiplier is taken at its exact decimal value and the product is truncated exactly. The source multiplies in floating point.
- TokenAmounts.WeiEtherRoundTrip: holds for exact decimals. Python's `Decimal` context keeps 28 significant digits and would round longer amounts.
- Text case mapping (`Lower`, `Upper`, `Capitalize`) covers ASCII letters only; Python also maps other Unicode letters.
- Values.IntOf: text converts when it is an optional sign (`+` or `-`) followed by ASCII digits. Python's `int()` also accepts surrounding whitespace and underscores between digits.
- Networks.GetNetwork: only the six network attributes are looked up. Python's `hasattr` would also find other class attributes whose names survive `capitalize()` unchanged, such as dunder names.
- Logging.FormatMessage: below the root, empty and `.` segments are dropped as `os.path.relpath` does, but `..` segments are kept as they are rather than resolved. For a message that continues the root's last path component without a separator, the model keeps the remainder, where `os.path.relpath` would climb out of the root with `..`.
- ZkBridge.MintBody: the hash is written as `0x` followed by lower-case hexadecimal. Whether `HexBytes.hex()` adds the prefix depends on the library version.
- Exceptions carry their kind and, where the model uses it, the IP or the network name, but not their message text.
- Networks.Build: the registry is built once, from arguments that need no lookups. The draw for the two networks that list several RPC URLs is a single `pick`, shared by both.

## Findings

| source | as written | input that shows it | evidently intended | confidence | as-written member | corrected member |
|---|---|---|---|---|---|---|
| settings/modules_settings.py:14-15 | `mint_polyhedra_2024_nft` awaits the per-account mint routine but has no `return`, so it always returns None. The pause between accounts in `main` (main.py:131-132) then never happens. | Any wallet list of two or more accounts with a successful mint on the first: no pause follows it. | Return the routine's result, so that a successful account is followed by the configured 100–600 s pause. | not executed | Launcher.AsWrittenNeverPausesBetweenAccounts | Launcher.PausesBetweenAccountsIffMinted |
| min_library/models/logger/logger.py:128-135 | `format_message` runs `os.path.relpath` on the whole record text, `<file>:<line> - <message>`, and `relpath` collapses repeated separators. The console line of the main logger and the per-account log therefore show the MINTED link `https://…/tx/0x…` as `https:/…/tx/0x…`. | Root `/r`, caller `/r/m.py` at line 7, message `https://e`: the rendered text is `m.py:7 - https:/e`. | Make only the caller's file relative and leave the line and the message as logged. | not executed | Logging.AsWrittenLinkLosesASlash | Logging.FormatRecord |
