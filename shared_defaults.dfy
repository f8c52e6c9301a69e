/**
 * The App Group user defaults that the app and its widget share. Only the
 * key-value contents are modelled; the suite and its synchronisation are not.
 */
module SharedDefaults {
  import opened Platform

  /** The key under which the app leaves a snapshot of the active game. */
  const ActiveGameKey := "activeGame"

  type Defaults = map<string, Value>
}
