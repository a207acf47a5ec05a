/** The user settings the modelled code reads. */
module Settings {
  /** Accounts are named from the names file rather than numbered. */
  const IsAccountNames := true
  const IsShuffleWallets := true
  const IsSleep := true
  const SleepBetweenAccsFrom := 100
  const SleepBetweenAccsTo := 600
  const IsCreateLogsForEveryWallet := false
  const RetryCount := 3
}
