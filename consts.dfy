/** The constants of the integration (const.py). */
module Const {

  const Domain: string := "nature_remo"

  /** Keys of the per-entry climate configuration and their defaults. */
  const ConfCoolTemp: string := "cool_temperature"
  const ConfHeatTemp: string := "heat_temperature"
  const DefaultCoolTemp: int := 28
  const DefaultHeatTemp: int := 20

  /** Key of the polling interval in a config entry, its default and its allowed values (seconds). */
  const ConfUpdateInterval: string := "update_interval"
  const DefaultUpdateInterval: int := 60
  const UpdateIntervalOptions: seq<int> := [10, 15, 30, 45, 60, 90, 120]

  /** Key of the access token in a config entry (Home Assistant's CONF_ACCESS_TOKEN). */
  const ConfAccessToken: string := "access_token"

  /** Base URL of the cloud API; note that it ends with a slash. */
  const Resource: string := "https://api.nature.global/1/"

  /** ECHONET Lite property code of the measured instantaneous electric power. */
  const EpcMeasuredInstantaneous: int := 231

  lemma DefaultIntervalIsOffered()
    ensures DefaultUpdateInterval in UpdateIntervalOptions
  {
  }
}
