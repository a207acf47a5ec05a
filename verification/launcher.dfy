/** The launcher: the start-up check on the key and name files, the list of
    wallets the bot walks, and the pause between accounts. The order of the
    wallets is the order they are given in; a shuffle is represented by
    passing them already shuffled. */
module Launcher {
  import opened Exceptions
  import opened Wrappers
  import opened Logging
  import opened Helpers
  import Settings

  const NoKeys := "Don't imported private keys in 'private_keys.txt'!"
  const NoNames := "Please insert names into account_names.txt"
  const CountMismatch := "The account names' amount must be equal to private keys' amount"

  /** `is_bot_setuped_to_start`: whether to start, and the complaint printed
      when not, from the first check that fails. */
  function IsBotSetupToStart(keys: seq<string>, names: seq<string>, useNames: bool): (r: (bool, Option<string>))
    ensures r.0 <==> |keys| > 0 && (useNames ==> |names| == |keys|)
    ensures r.0 <==> r.1.None?
    ensures |keys| == 0 ==> r.1 == Some(NoKeys)
    ensures |keys| > 0 && useNames && |names| == 0 ==> r.1 == Some(NoNames)
    ensures |keys| > 0 && useNames && 0 < |names| != |keys| ==> r.1 == Some(CountMismatch)
  {
    if |keys| == 0 then (false, Some(NoKeys))
    else if |names| == 0 && useNames then (false, Some(NoNames))
    else if |keys| != |names| && useNames then (false, Some(CountMismatch))
    else (true, None)
  }

  /** One entry of the wallet list: `{"name": ..., "key": ...}`. */
  datatype Wallet = Wallet(name: AccountId, key: string)

  /** `get_accounts`: names paired with keys (as far as both lists go), or
      keys numbered from 1. */
  method GetAccounts(keys: seq<string>, names: seq<string>, useNames: bool) returns (accounts: seq<Wallet>)
    ensures useNames ==> |accounts| == if |names| < |keys| then |names| else |keys|
    ensures !useNames ==> |accounts| == |keys|
    ensures forall i :: 0 <= i < |accounts| ==> accounts[i].key == keys[i]
    ensures forall i :: 0 <= i < |accounts| ==>
      accounts[i].name == if useNames then IdStr(names[i]) else IdInt(i + 1)
  {
    var n := if useNames && |names| < |keys| then |names| else |keys|;
    accounts := [];
    var i := 0;
    while i < n
      invariant 0 <= i <= n
      invariant |accounts| == i
      invariant forall j :: 0 <= j < i ==> accounts[j].key == keys[j]
      invariant forall j :: 0 <= j < i ==>
        accounts[j].name == if useNames then IdStr(names[j]) else IdInt(j + 1)
    {
      var name := if useNames then IdStr(names[i]) else IdInt(i + 1);
      accounts := accounts + [Wallet(name, keys[i])];
      i := i + 1;
    }
  }

  /** The guard after each account: sleeping is on, the account is not equal
      to the last one of the list (so neither the last account nor a
      duplicate of it is followed by a pause), and the module returned a
      truthy result. */
  predicate PausesAfter(accounts: seq<Wallet>, i: nat, result: Option<bool>)
    requires i < |accounts|
  {
    Settings.IsSleep && accounts[i] != accounts[|accounts| - 1] && result == Some(true)
  }

  const BeforeNextAccount := "before next account"

  /** `main(module)`: run the module on every wallet in turn; call `i`
      returns `run(i)`. After a call that returns, pause when `PausesAfter`
      holds, drawing `draws(i)` from the configured range. A call that
      raises ends the loop: no later wallet is run, and the exception is
      what `main` raises. `pauses[i]` is the pause after wallet `i`, for
      every wallet that was run and returned. */
  method RunAccounts(accounts: seq<Wallet>, run: nat -> Result<Option<bool>>, draws: nat -> nat)
    returns (pauses: seq<Option<Sleep>>, raised: Option<Exception>)
    ensures |pauses| <= |accounts|
    ensures forall i :: 0 <= i < |pauses| ==> run(i).Ok?
    ensures raised.None? <==> |pauses| == |accounts|
    ensures raised.Some? ==> run(|pauses|) == Err(raised.value)
    ensures forall i :: 0 <= i < |pauses| ==> (pauses[i].Some? <==> PausesAfter(accounts, i, run(i).value))
    ensures forall i :: 0 <= i < |pauses| && pauses[i].Some? ==>
      && Settings.SleepBetweenAccsFrom <= pauses[i].value.secs <= Settings.SleepBetweenAccsTo
      && pauses[i].value == Delay(Settings.SleepBetweenAccsFrom, Settings.SleepBetweenAccsTo, BeforeNextAccount, draws(i)).value
  {
    pauses := [];
    var i := 0;
    while i < |accounts|
      invariant 0 <= i <= |accounts|
      invariant |pauses| == i
      invariant forall j :: 0 <= j < i ==> run(j).Ok?
      invariant forall j :: 0 <= j < i ==> (pauses[j].Some? <==> PausesAfter(accounts, j, run(j).value))
      invariant forall j :: 0 <= j < i && pauses[j].Some? ==>
        && Settings.SleepBetweenAccsFrom <= pauses[j].value.secs <= Settings.SleepBetweenAccsTo
        && pauses[j].value == Delay(Settings.SleepBetweenAccsFrom, Settings.SleepBetweenAccsTo, BeforeNextAccount, draws(j)).value
    {
      var outcome := run(i);
      if outcome.Err? {
        return pauses, Some(outcome.error);
      }
      var result := outcome.value;
      if Settings.IsSleep && accounts[i] != accounts[|accounts| - 1] && result == Some(true) {
        var pause := Delay(Settings.SleepBetweenAccsFrom, Settings.SleepBetweenAccsTo, BeforeNextAccount, draws(i));
        pauses := pauses + [Some(pause.value)];
      } else {
        pauses := pauses + [None];
      }
      i := i + 1;
    }
    raised := None;
  }

  /** The last account, and any account equal to it, is never followed by a
      pause, whatever the module returned. */
  lemma NoPauseAfterLast(accounts: seq<Wallet>, i: nat, result: Option<bool>)
    requires i < |accounts| && accounts[i] == accounts[|accounts| - 1]
    ensures !PausesAfter(accounts, i, result)
  {
  }

  /** `mint_polyhedra_2024_nft` as written: it awaits the per-account mint
      routine, whose result is `minted` (whether some network's mint was
      reported), but does not return it, so the caller always sees None. */
  function MintModuleAsWritten(minted: bool): (r: Option<bool>)
    ensures r.None?
  {
    None
  }

  /** As written, the pause between accounts never happens, whatever the
      accounts and whatever the mints achieved. */
  lemma AsWrittenNeverPausesBetweenAccounts(accounts: seq<Wallet>, i: nat, minted: bool)
    requires i < |accounts|
    ensures !PausesAfter(accounts, i, MintModuleAsWritten(minted))
  {
  }

  /** The module as evidently intended: it returns the routine's result. */
  function MintModule(minted: bool): (r: Option<bool>)
    ensures r.Some? && (r.value <==> minted)
  {
    Some(minted)
  }

  /** With the result returned, an account is followed by a pause exactly
      when the routine reported a mint on it and it is not (equal to) the
      last. */
  lemma PausesBetweenAccountsIffMinted(accounts: seq<Wallet>, i: nat, minted: bool)
    requires i < |accounts|
    ensures PausesAfter(accounts, i, MintModule(minted)) <==> minted && accounts[i] != accounts[|accounts| - 1]
  {
  }
}
