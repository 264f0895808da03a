/**
 * The `Config` class: only the choice of prefix in `print_status` is
 * modelled, since printing itself is not.
 */
module Config {
  /** The prefix `Config.print_status` puts before a message. */
  function StatusPrefix(statusType: string): (prefix: string)
    ensures prefix == "[ + ]" <==> statusType == "info"
    ensures prefix == "[ ! ]" <==> statusType == "warning"
    ensures prefix == "[ - ]" <==> statusType == "error"
    ensures prefix == "[ * ]" <==> statusType !in {"info", "warning", "error"}
  {
    if statusType == "info" then "[ + ]"
    else if statusType == "warning" then "[ ! ]"
    else if statusType == "error" then "[ - ]"
    else "[ * ]"
  }
}
