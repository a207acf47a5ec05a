/** `AccountManager`: the per-account bundle of network, proxy, signing
    account and logger. The proxy check's HTTP answer, key derivation and
    key creation are given to the model as values; headers and the web3
    provider carry no state the rest of the program reads. */
module AccountManagers {
  import opened Exceptions
  import opened Wrappers
  import opened Text
  import opened NetworkDescriptor
  import opened Logging

  /** A signing account, by the address the rest of the program reads. */
  datatype Account = Account(address: string)

  /** What the outside world answers while an account manager is built:
      the IP the proxy check sees, the account a key derives, and the
      account a fresh key would give. */
  datatype World = World(observedIp: Result<string>, fromKey: string -> Result<Account>, created: Account)

  datatype AccountManager = AccountManager(
    accountId: AccountId,
    network: Network,
    proxy: Option<string>,
    account: Option<Account>,
    logger: CustomLogger)

  /** A proxy without `http` anywhere in it gets the `http://` scheme. */
  function NormaliseProxy(proxy: string): (r: string)
    ensures Contains(r, "http")
    ensures Contains(proxy, "http") ==> r == proxy
    ensures !Contains(proxy, "http") ==> r == "http://" + proxy
  {
    if Contains(proxy, "http") then proxy
    else
      assert "http://" + proxy == "http" + ("://" + proxy);
      PrefixContained("http", "://" + proxy);
      "http://" + proxy
  }

  /** Normalising twice is normalising once. */
  lemma NormaliseProxyIdempotent(proxy: string)
    ensures NormaliseProxy(NormaliseProxy(proxy)) == NormaliseProxy(proxy)
  {
  }

  /** `_initialize_proxy`: no proxy is left alone; otherwise it is normalised
      and, when checking, the IP seen through it (trailing whitespace
      dropped) must occur in the proxy text, else InvalidProxy. */
  function InitProxy(proxy: Option<string>, check: bool, observedIp: Result<string>): (r: Result<Option<string>>)
    ensures proxy.None? || proxy.value == "" ==> r == Ok(proxy)
    ensures proxy.Some? && proxy.value != "" && !check ==> r == Ok(Some(NormaliseProxy(proxy.value)))
    ensures proxy.Some? && proxy.value != "" && check && observedIp.Err? ==> r == Err(observedIp.error)
    ensures proxy.Some? && proxy.value != "" && check && observedIp.Ok? ==>
      var ip := Rstrip(observedIp.value);
      && (r.Ok? <==> Contains(NormaliseProxy(proxy.value), ip))
      && (r.Ok? ==> r.value == Some(NormaliseProxy(proxy.value)))
      && (r.Err? ==> r.error == InvalidProxy(ip))
  {
    if proxy.None? || proxy.value == "" then Ok(proxy)
    else
      var normal := NormaliseProxy(proxy.value);
      if !check then Ok(Some(normal))
      else
        var seen :- observedIp;
        var ip := Rstrip(seen);
        if Contains(normal, ip) then Ok(Some(normal)) else Err(InvalidProxy(ip))
  }

  /** A proxy that passed once passes again with the same answer, and is not
      rewritten a second time. */
  lemma InitProxyStable(proxy: Option<string>, check: bool, observedIp: Result<string>)
    requires InitProxy(proxy, check, observedIp).Ok?
    ensures InitProxy(InitProxy(proxy, check, observedIp).value, check, observedIp)
         == InitProxy(proxy, check, observedIp)
  {
    if proxy.Some? && proxy.value != "" {
      NormaliseProxyIdempotent(proxy.value);
      var n := NormaliseProxy(proxy.value);
      assert n != "" by { ContainsAt(n, "http"); }
    }
  }

  /** `_initialize_account`: a non-empty key is derived, the empty key means
      no account, and no key at all means a freshly created one. */
  function InitAccount(key: Option<string>, w: World): (r: Result<Option<Account>>)
    ensures key == Some("") ==> r == Ok(None)
    ensures key.None? ==> r == Ok(Some(w.created))
    ensures key.Some? && key.value != "" ==>
      (r.Ok? <==> w.fromKey(key.value).Ok?) && (r.Ok? ==> r.value == Some(w.fromKey(key.value).value))
  {
    match key
    case None => Ok(Some(w.created))
    case Some(k) =>
      if k == "" then Ok(None)
      else
        var a :- w.fromKey(k);
        Ok(Some(a))
  }

  /** `AccountManager(...)`: the proxy is settled first, then the account,
      then the logger, which reads the account's address (so an empty key
      ends in AttributeError) and labels the network by its capitalised
      name. */
  function New(accountId: AccountId, key: Option<string>, network: Network, proxy: Option<string>,
               checkProxy: bool, perAccount: bool, w: World): (r: Result<AccountManager>)
    ensures InitProxy(proxy, checkProxy, w.observedIp).Err? ==> r == Err(InitProxy(proxy, checkProxy, w.observedIp).error)
    ensures key == Some("") && InitProxy(proxy, checkProxy, w.observedIp).Ok? ==> r == Err(AttributeError)
    ensures r.Ok? ==>
      && r.value.accountId == accountId && r.value.network == network
      && r.value.proxy == InitProxy(proxy, checkProxy, w.observedIp).value
      && r.value.account.Some?
      && r.value.logger == CustomLogger(accountId, r.value.account.value.address, Capitalize(network.name), perAccount)
    ensures key.None? && InitProxy(proxy, checkProxy, w.observedIp).Ok? ==> r.Ok? && r.value.account == Some(w.created)
    ensures r.Ok? ==> InitAccount(key, w) == Ok(r.value.account)
  {
    var p :- InitProxy(proxy, checkProxy, w.observedIp);
    var account :- InitAccount(key, w);
    if account.None? then Err(AttributeError)
    else Ok(AccountManager(accountId, network, p, account,
                           CustomLogger(accountId, account.value.address, Capitalize(network.name), perAccount)))
  }

  /** A manager exists exactly when the proxy passes and the key is absent or
      derives an account. */
  lemma NewSucceedsIff(accountId: AccountId, key: Option<string>, network: Network, proxy: Option<string>,
                       checkProxy: bool, perAccount: bool, w: World)
    ensures New(accountId, key, network, proxy, checkProxy, perAccount, w).Ok?
       <==> InitProxy(proxy, checkProxy, w.observedIp).Ok?
            && (key.None? || (key.value != "" && w.fromKey(key.value).Ok?))
  {
  }

  /** The logger's network label does not depend on how the network's name
      is cased. */
  lemma LoggerLabelIgnoresCase(accountId: AccountId, key: Option<string>, network: Network, proxy: Option<string>,
                               checkProxy: bool, perAccount: bool, w: World)
    requires New(accountId, key, network, proxy, checkProxy, perAccount, w).Ok?
    ensures New(accountId, key, network.(name := Upper(network.name)), proxy, checkProxy, perAccount, w).Ok?
    ensures New(accountId, key, network.(name := Upper(network.name)), proxy, checkProxy, perAccount, w).value.logger
         == New(accountId, key, network, proxy, checkProxy, perAccount, w).value.logger
  {
    LowerOfUpper(network.name);
    CapitalizeIgnoresCase(Upper(network.name), network.name);
  }
}
