/**
 * Setting up and unloading a config entry (`async_setup_entry`,
 * `async_unload_entry` in custom_components/nature_remo/__init__.py): the
 * per-entry record kept in the shared store `hass.data[DOMAIN]`.
 */
module Integration {
  import opened Wrappers
  import opened ConfigEntries
  import Api
  import Const

  /** A `NatureRemoAPI` instance: it keeps the access token (rendered as its f-strings render it). */
  datatype Client = Client(token: string)

  /** The `DataUpdateCoordinator` as configured here: its name and polling interval in seconds. */
  datatype Coordinator = Coordinator(name: string, intervalSeconds: int)

  /** `hass.data[DOMAIN][entry_id]`. */
  datatype EntryRecord = EntryRecord(api: Client, coordinator: Coordinator, config: map<string, int>)

  /** The per-entry climate configuration stored at setup: both defaults. */
  function DefaultClimateConfig(): (c: map<string, int>)
    ensures c.Keys == {Const.ConfCoolTemp, Const.ConfHeatTemp}
    ensures c[Const.ConfCoolTemp] == 28 && c[Const.ConfHeatTemp] == 20
  {
    map[Const.ConfCoolTemp := Const.DefaultCoolTemp, Const.ConfHeatTemp := Const.DefaultHeatTemp]
  }

  /**
   * Whether `timedelta(seconds=n)` fits: `timedelta` keeps at most 999999999
   * days either way, and the seconds are floored into days.
   */
  predicate TimedeltaFits(n: int) {
    -86399999913600 <= n < 86400000000000
  }

  /** The bounds are those of 999999999 days of 86400 seconds, under floor division. */
  lemma TimedeltaFitsDays(n: int)
    ensures TimedeltaFits(n) <==> -999999999 <= n / 86400 <= 999999999
  {
  }

  /**
   * `timedelta(seconds=entry.data.get("update_interval", 60))`: the stored
   * interval when there is one, else 60; a string there makes timedelta raise
   * TypeError, and a number of seconds beyond its range OverflowError.
   */
  function UpdateInterval(data: map<string, ConfigValue>): (r: Result<int, Raised>)
    ensures Const.ConfUpdateInterval !in data ==> r == Success(60)
    ensures Const.ConfUpdateInterval in data && data[Const.ConfUpdateInterval].CInt? ==>
              var n := data[Const.ConfUpdateInterval].i;
              r == if TimedeltaFits(n) then Success(n) else Failure(OverflowError)
    ensures Const.ConfUpdateInterval in data && data[Const.ConfUpdateInterval].CStr? ==>
              r == Failure(TypeError)
  {
    match Lookup(data, Const.ConfUpdateInterval)
    case None => Success(Const.DefaultUpdateInterval)
    case Some(CInt(n)) => if TimedeltaFits(n) then Success(n) else Failure(OverflowError)
    case Some(CStr(_)) => Failure(TypeError)
  }

  /** The coordinator's update method `async_update_data`: what `api.get()` returns or raises, unchanged. */
  function UpdateData(api: Client, resp: Api.Responses): (r: Result<Api.Snapshot, Api.Error>)
    ensures r.Success? <==> resp.appliances.Success? && resp.devices.Success?
    ensures r.Failure? ==> r.error == (if resp.appliances.Failure? then resp.appliances.error else resp.devices.error)
    ensures r == Api.Get(api.token, resp).outcome
  {
    Api.Get(api.token, resp).outcome
  }

  /** The part of `hass.data` this integration owns: `hass.data[DOMAIN]`, absent before the first setdefault. */
  class DomainStore {
    var domain: Option<map<string, EntryRecord>>

    constructor ()
      ensures domain == None
    {
      domain := None;
    }

    /**
     * `async_setup_entry`: create the domain slot if missing, read the token
     * and the interval, and store the entry's record under its id. The initial
     * refresh and the platform forwarding are host calls and are not modelled.
     */
    method SetupEntry(entry: ConfigEntry) returns (r: Result<bool, Raised>)
      modifies this
      ensures domain.Some?
      ensures var before := if old(domain).Some? then old(domain).value else map[];
        if Const.ConfAccessToken !in entry.data then
          r == Failure(KeyError(Const.ConfAccessToken)) && domain.value == before
        else if UpdateInterval(entry.data).Failure? then
          && r == Failure(UpdateInterval(entry.data).error)
          && (r == Failure(TypeError) || r == Failure(OverflowError))
          && domain.value == before
        else
          && r == Success(true)
          && domain.value == before[entry.entryId := EntryRecord(
               Client(Render(entry.data[Const.ConfAccessToken])),
               Coordinator("Nature Remo update", UpdateInterval(entry.data).value),
               DefaultClimateConfig())]
    {
      if domain.None? {
        domain := Some(map[]);
      }
      if Const.ConfAccessToken !in entry.data {
        return Failure(KeyError(Const.ConfAccessToken));
      }
      var accessToken := entry.data[Const.ConfAccessToken];
      var interval := UpdateInterval(entry.data);
      if interval.Failure? {
        return Failure(interval.error);
      }
      var api := Client(Render(accessToken));
      var coordinator := Coordinator("Nature Remo update", interval.value);
      domain := Some(domain.value[entry.entryId := EntryRecord(api, coordinator, DefaultClimateConfig())]);
      return Success(true);
    }

    /**
     * `async_unload_entry`: `platformsUnloaded` is what the host's platform
     * unload returned. Only on success is the entry popped (a missing slot or
     * id raises KeyError); the flag is returned.
     */
    method UnloadEntry(entryId: string, platformsUnloaded: bool) returns (r: Result<bool, Raised>)
      modifies this
      ensures !platformsUnloaded ==> r == Success(false) && domain == old(domain)
      ensures platformsUnloaded && old(domain).None? ==>
                r == Failure(KeyError(Const.Domain)) && domain == old(domain)
      ensures platformsUnloaded && old(domain).Some? && entryId !in old(domain).value ==>
                r == Failure(KeyError(entryId)) && domain == old(domain)
      ensures platformsUnloaded && old(domain).Some? && entryId in old(domain).value ==>
                && r == Success(true)
                && domain == Some(old(domain).value - {entryId})
    {
      if !platformsUnloaded {
        return Success(false);
      }
      if domain.None? {
        return Failure(KeyError(Const.Domain));
      }
      if entryId !in domain.value {
        return Failure(KeyError(entryId));
      }
      domain := Some(domain.value - {entryId});
      return Success(true);
    }
  }
}
