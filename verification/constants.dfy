/** Shared constants: native-coin symbols and the log levels the bot uses. */
module Constants {

  const AVAX := "AVAX"
  const ETH := "ETH"
  const BNB := "BNB"
  const MATIC := "MATIC"

  /** `LogStatus`: the level names passed to the account logger. */
  datatype LogStatus = Delay | Debug | Info | Warning | Success | Error | Critical | Minted | Bridged {
    function Name(): string {
      match this
      case Delay => "DELAY"
      case Debug => "DEBUG"
      case Info => "INFO"
      case Warning => "WARNING"
      case Success => "SUCCESS"
      case Error => "ERROR"
      case Critical => "CRITICAL"
      case Minted => "MINTED"
      case Bridged => "BRIDGED"
    }
  }
}
