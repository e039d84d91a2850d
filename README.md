# Nature Remo integration for Home Assistant: a verified model

This is a model in Dafny of the core of the Nature Remo custom integration
(`custom_components/nature_remo`). The integration turns the Nature Remo cloud
API into Home Assistant entities. The model covers these parts:

- **The API client** `NatureRemoAPI` (`Api`).
  - `get` fetches the appliance list and then the device list, and keys each list by `id`.
  - `post` sends one form-encoded request.
  - The HTTP session is not modelled. What it answers (a decoded list, or an error status, a transport failure or a bad body) is an input.
  - `get` returns the requests it issued, in order, so the trace shows that the devices request is never sent after the appliances request fails.
- **Python dictionaries** (`Dicts`).
  - Entity selection iterates over `values()` and `keys()`, so a dictionary is its insertion-ordered key list plus its map.
  - `{x["id"]: x for x in xs}` is `ByKey`.
- **Entry setup and unload** (`Integration`).
  - `hass.data[DOMAIN]` is a class `DomainStore` whose methods change it in place.
- **The entity base classes** (`Entities`) and **the sensor platform** (`Sensors`).
  - Which entities a snapshot yields, and in what order.
  - Each entity's name, unique id, unit, device class and state.
  - `async_setup_entry` of the platform is a method with the same nested loop as the source.
- **Config entries as the host keeps them** (`ConfigEntries`).
  - A class `Registry` with `async_remove` and `async_update_entry`.
- **The config flow** (`ConfigFlow`).
  - The version 1 to 2 migration.
  - The user, import and reconfigure steps.
  - `_validate_token`.
  - The user and reconfigure steps are module-level methods that take the `Registry` and change it, because they remove and update entries.

Host calls whose outcome the integration only reacts to are boolean inputs:

- whether `async_remove` succeeded (`removeOk`; the reconfigure step, which removes once itself and once more through the user step, takes one flag per call),
- whether the update and the marking inside the migration succeeded (`updateOk`, `markOk`),
- whether the reload after a reconfigure succeeded (`reloadOk`),
- what `async_unload_platforms` returned (`platformsUnloaded`).

Strings are `seq<char>`. Python's `str()` of an integer and `str.strip()` are
written out in `Text`. `strip` uses Python's set of whitespace characters.

Where a snapshot lacks a field, the code does not report the entity as
"unavailable": the property raises, and so does the model:

- KeyError for a missing appliance, device, event key or `smart_meter`.
- StopIteration when no ECHONET Lite property has code 231 (`next` without a default).
- TypeError while the coordinator has no data.

The list URLs are written `f"{_RESOURCE}/appliances"` and `f"{_RESOURCE}/devices"`
with a base URL that already ends in a slash, so the code requests
`https://api.nature.global/1//appliances`. The model records that URL as
written (`Api.ListUrlAsWritten`) and builds `Api.Get` on the corrected URL;
see Findings and the `Api.Get` line under Left out.

## Model

| member | source | states |
|---|---|---|
| Const.DefaultIntervalIsOffered | const.py:14-15 | the default interval of 60 seconds is one of the offered intervals |
| Text.Strip | custom_components/nature_remo/sensor.py:110 | `strip()` returns a contiguous slice of its input; everything cut off at either end is whitespace, and the result neither starts nor ends with whitespace |
| Text.StripKeepsPrefix | custom_components/nature_remo/sensor.py:110 | stripping a string that starts with a prefix without whitespace at either end keeps the prefix and only trims the end |
| Text.IntText | custom_components/nature_remo/config_flow.py:127-128 | `str()` of an integer: a sign exactly for negatives, then only decimal digits, without a leading zero, that read back as the absolute value |
| Dicts.Put | custom_components/nature_remo/__init__.py:237 | dictionary assignment: a new key goes to the end of the key order, an existing key keeps its place, and the value is replaced |
| Dicts.Values | custom_components/nature_remo/sensor.py:38 | `values()` lists the values in key order: every mapped value occurs in the list, and every element of the list is a mapped value |
| Dicts.ByKey | custom_components/nature_remo/__init__.py:237 | the id-keyed comprehension: its keys are exactly the ids of the list's elements, and every value sits under its own id |
| Dicts.ByKeyLastWins | custom_components/nature_remo/__init__.py:237 | for a duplicate id the kept value is the last element with that id |
| Dicts.ByKeyOrder | custom_components/nature_remo/__init__.py:237 | the key order is the order of first occurrence in the list |
| Api.AuthHeaders | custom_components/nature_remo/__init__.py:228 | the only header is `Authorization` |
| Api.ListUrlAsWrittenDoublesSlash | custom_components/nature_remo/__init__.py:233 | the list URL as written always has `//` after the base URL, e.g. `https://api.nature.global/1//appliances` |
| Api.ListUrlIsSingleSlash | custom_components/nature_remo/__init__.py:262-263 | the corrected list URL is built the way `post` builds its URL, and has a single slash after the base |
| Api.Get | custom_components/nature_remo/__init__.py:225-255 | the appliances request is issued first, and the devices request only when the appliances request succeeded; every request is a GET with `Bearer <token>`; the snapshot is returned iff both succeed; otherwise the first failure is raised as it is; on success both tables have exactly the response's ids as keys, each value under its own id |
| Api.GetLastWins | custom_components/nature_remo/__init__.py:237-249 | in both tables a duplicate id keeps the last element of the response with that id |
| Api.Post | custom_components/nature_remo/__init__.py:257-271 | one POST to the base URL followed by the path, with the form data and only the bearer header; the response or the failure passes through unchanged |
| ConfigEntries.Render | custom_components/nature_remo/__init__.py:228 | rendering a stored value in an f-string gives a string value back unchanged, and an integer as a sign exactly for negatives followed by decimal digits, without a leading zero, that read back as its absolute value |
| ConfigEntries.Find | custom_components/nature_remo/config_flow.py:161-164 | `async_get_entry` finds an entry with the id iff one exists |
| ConfigEntries.Without | custom_components/nature_remo/config_flow.py:89 | removal keeps exactly the entries with other ids and keeps ids unique |
| ConfigEntries.WithData | custom_components/nature_remo/config_flow.py:184-190 | updating the data of one entry keeps every entry's id, version, state and position, keeps ids unique, and replaces the data of exactly the entries with that id |
| ConfigEntries.WithDataFinds | custom_components/nature_remo/config_flow.py:184-190 | after the update, `async_get_entry` finds the entry with the new data; an update of an id that is not registered changes nothing |
| ConfigEntries.Registry.Remove | custom_components/nature_remo/config_flow.py:88-92 | `async_remove` takes the entry out when the host succeeds; a failure is swallowed and nothing changes |
| ConfigEntries.Registry.UpdateData | custom_components/nature_remo/config_flow.py:184-190 | `async_update_entry(entry, data=...)` replaces that entry's data |
| Integration.DefaultClimateConfig | custom_components/nature_remo/__init__.py:99-102 | the stored climate configuration has exactly the keys `cool_temperature` 28 and `heat_temperature` 20 |
| Integration.UpdateInterval | custom_components/nature_remo/__init__.py:54 | the polling interval is the stored number of seconds, or 60 when none is stored; a string makes `timedelta` raise TypeError, and a number of seconds outside -86399999913600 to 86399999999999 raises OverflowError |
| Integration.TimedeltaFitsDays | custom_components/nature_remo/__init__.py:54 | those bounds are exactly the seconds whose floor division into days stays within `timedelta`'s 999999999 days either way |
| Integration.UpdateData | custom_components/nature_remo/__init__.py:60-69 | the coordinator's update method returns `get`'s outcome unchanged: the fetched snapshot iff both requests succeed, and otherwise the first failure re-raised |
| Integration.DomainStore.SetupEntry | custom_components/nature_remo/__init__.py:49-108 | the domain slot exists afterwards; a missing token raises KeyError, and an interval `timedelta` rejects raises TypeError (a string) or OverflowError (out of range); none of these stores anything; otherwise exactly this entry's record is stored (client with the token, coordinator "Nature Remo update" at the interval, default climate configuration), and the other records are untouched |
| Integration.DomainStore.UnloadEntry | custom_components/nature_remo/__init__.py:110-115 | returns the platforms' unload flag; only on success is the entry popped, and no other entry changes; a missing slot or id raises KeyError |
| Entities.ApplianceIdentity | custom_components/nature_remo/__init__.py:276-306 | an appliance entity is named `Nature Remo ` + nickname (which can be read back); its unique id is the appliance id; it is not polled; its device info has one identifier `("nature_remo", device id)`, the device's name, manufacturer `Nature Remo`, the serial number as model and the firmware version as sw_version |
| Entities.DeviceIdentity | custom_components/nature_remo/__init__.py:311-342 | the same rules for a device entity, with the device's own name and id: named `Nature Remo ` + device name (read back), unique id the device id, not polled, one identifier `("nature_remo", device id)`, the device name, manufacturer `Nature Remo`, the serial number as model and the firmware version as sw_version |
| Entities.SameDeviceSameInfo | custom_components/nature_remo/__init__.py:298-306 | an appliance entity and an entity of the device it sits on report the same device info |
| Entities.ApplianceNamesDistinct | custom_components/nature_remo/__init__.py:278 | different nicknames give different entity names |
| Sensors.KindOfKey | custom_components/nature_remo/sensor.py:44-50 | a `newest_events` key makes a sensor iff it is `te`, `hu` or `il`, and the sensor reads that key |
| Sensors.DeviceClassAsWrittenFailsForPower | custom_components/nature_remo/sensor.py:88-90 | as written, `device_class` raises AttributeError for exactly the power entities, and agrees with the intended class for the others |
| Sensors.UnitAndClass | custom_components/nature_remo/sensor.py:82-204 | the fixed pairs W/power, °C/temperature, %/humidity and lx/illuminance; two entities share a unit iff they share a device class |
| Sensors.FirstWithEpc | custom_components/nature_remo/sensor.py:76-78 | the generator's first match: none iff no property has the code; otherwise the lowest index with that code |
| Sensors.State | custom_components/nature_remo/sensor.py:64-80 | from the coordinator's current data: TypeError without data; the power entity raises KeyError for a missing appliance or `smart_meter`, raises StopIteration iff no property has code 231, and otherwise returns the value of the first property with code 231; a sensor (lines 123-199) raises KeyError for a missing device or key, and otherwise returns `newest_events[key].val` |
| Sensors.ReadingStateIsCurrent | custom_components/nature_remo/sensor.py:124-131 | a sensor's state depends only on its device id and the current data, never on the device object captured at construction |
| Sensors.EnergyStateExample | custom_components/nature_remo/sensor.py:70-80 | properties 225 then 231 (450) then 231 again give 450; a meter without 231 raises StopIteration |
| Sensors.ReadingStateExample | custom_components/nature_remo/sensor.py:123-199 | with events `te` 21.5 and `hu` 60, temperature reads 21.5, humidity reads 60, and illuminance raises KeyError |
| Sensors.StrippedDeviceName | custom_components/nature_remo/sensor.py:110 | stripping `Nature Remo ` + device name only trims its end and keeps the brand |
| Sensors.ReadingName | custom_components/nature_remo/sensor.py:108-111 | a sensor is named `rstrip("Nature Remo " + device name)` followed by ` Temperature`, ` Humidity` or ` Illuminance`, and starts with `Nature Remo` |
| Sensors.ReadingIdInjective | custom_components/nature_remo/sensor.py:113-116 | sensor unique ids `<device id>-te/-hu/-il` determine both the device id and the kind |
| Sensors.EnergyEntitiesExact | custom_components/nature_remo/sensor.py:36-40 | the comprehension yields only power entities; it contains the entity of every `EL_SMART_METER` appliance and nothing else |
| Sensors.EventEntitiesExact | custom_components/nature_remo/sensor.py:44-50 | a device yields only its own sensors; it contains the sensor of every `te`/`hu`/`il` key and nothing else |
| Sensors.DeviceEntitiesExact | custom_components/nature_remo/sensor.py:42-50 | the device loop contains the sensor of every recognised event key of every device and nothing else |
| Sensors.EnergyIdsDistinct | custom_components/nature_remo/sensor.py:36-40 | for appliances with distinct ids no two power entities share a unique id, so with the membership lemma there is exactly one per smart meter |
| Sensors.EventIdsDistinct | custom_components/nature_remo/sensor.py:44-50 | for distinct event keys no two of a device's sensors share a unique id: exactly one per recognised key |
| Sensors.DeviceIdsDistinct | custom_components/nature_remo/sensor.py:42-50 | for devices with distinct ids no two device sensors share a unique id: exactly one per recognised key of each device |
| Sensors.SnapshotIdsDistinct | custom_components/nature_remo/sensor.py:36-50 | for a snapshot whose tables are keyed by id, as `get` builds them, the power entities and the device sensors each have pairwise distinct unique ids |
| Sensors.SetupEntities | custom_components/nature_remo/sensor.py:23-53 | the nested loop builds exactly the power entities in appliance order, then each device's sensors in key order; without data it raises TypeError |
| Sensors.EnergyFirst | custom_components/nature_remo/sensor.py:36-50 | in the created list, the power entities come first and only device sensors follow |
| ConfigFlow.MigratedData | custom_components/nature_remo/config_flow.py:45 | the new data is the old data with `update_interval` set to 60 (an existing one overwritten); every other key is kept |
| ConfigFlow.MigrateEntry | custom_components/nature_remo/config_flow.py:35-71 | returns true iff the version is 1 and the host accepted the update; the entry then has the migrated data, version 2 and state NOT_LOADED; other versions are left unchanged and return false; a failed update marks the entry SETUP_ERROR when that marking succeeds, and returns false |
| ConfigFlow.MigrationRunsOnce | custom_components/nature_remo/config_flow.py:42-59 | migrating a migrated entry again changes nothing and returns false |
| ConfigFlow.IntervalBounds | custom_components/nature_remo/config_flow.py:127-128 | `min` and `max` of the offered intervals are 10 and 120 |
| ConfigFlow.PlaceholderBounds | custom_components/nature_remo/config_flow.py:125-129 | the placeholders read `10` and `120` |
| ConfigFlow.FormIntervalChoices | custom_components/nature_remo/config_flow.py:120-123 | both forms accept the same intervals and never a string; the user form's default is accepted |
| ConfigFlow.ValidateToken | custom_components/nature_remo/config_flow.py:216-226 | the token is valid iff both requests of `get` succeed; any failure becomes InvalidAuth |
| ConfigFlow.FirstErrorIndex | custom_components/nature_remo/config_flow.py:84-86 | none iff no entry is in MIGRATION_ERROR or SETUP_ERROR; otherwise the first such entry |
| ConfigFlow.UserInputOutcome | custom_components/nature_remo/config_flow.py:98-130 | no input shows the form with no errors; an entry is created iff the token and the interval are present and the token validates; it holds exactly those two values and the title `Nature Remo`; a token that fails validation shows `invalid_auth`; this part never aborts |
| ConfigFlow.StepUser | custom_components/nature_remo/config_flow.py:73-130 | with entries present and none in an error state, it aborts `already_configured` and changes nothing; otherwise only the first error-state entry is removed (if the host removes it) and the input is decided as above |
| ConfigFlow.StepImport | custom_components/nature_remo/config_flow.py:132-156 | any existing entry aborts `already_configured`; a missing or empty token aborts `invalid_yaml_config`; otherwise a validating token creates an entry with the token and interval 60, and a failing one aborts `invalid_auth` |
| ConfigFlow.ImportedEntryFitsForm | custom_components/nature_remo/config_flow.py:145-151 | an imported entry holds exactly a token and an interval that the user form accepts |
| ConfigFlow.UserEntrySetsUp | custom_components/nature_remo/config_flow.py:103-109 | an entry created from schema-checked input has what setup needs, and polls at the chosen interval, which is one of the offered ones |
| ConfigFlow.ImportedEntrySetsUp | custom_components/nature_remo/config_flow.py:145-151 | an imported entry has what setup needs, and polls every 60 seconds |
| ConfigFlow.MigratedEntryKeepsInterval | custom_components/nature_remo/config_flow.py:45 | for a version 1 entry without an interval, migration keeps the interval setup used before: 60 seconds |
| ConfigFlow.ReconfigureOutcome | custom_components/nature_remo/config_flow.py:178-214 | new data is written iff the token and the interval are present and the token validates; the data is exactly those two values; the flow aborts `reconfigure_successful` iff that happened and the reload succeeded; a failed reload shows `unknown`, prefilled from the new data; no input shows the prefilled form; a failing token shows `invalid_auth`; no entry is ever created |
| ConfigFlow.StepReconfigure | custom_components/nature_remo/config_flow.py:158-214 | with no entry, it aborts `not_found` and changes nothing; an error-state entry is removed (unless that removal fails), and the user step then decides on the remaining entries: it aborts `already_configured` or handles the input, and the registry is exactly the remaining entries less their first error-state entry when the user step's own removal succeeds; otherwise the registry receives exactly the new data decided above, and nothing else changes |

## Left out

- HTTP transport, `raise_for_status` and JSON decoding are not modelled. Their outcome is an input: typed records, or an error.
  - Records are typed: every field an appliance or a device record carries is always present, except `smart_meter`. A response in which a record lacks a field is the `BadBody` error, so `Api.Get` fails on it. The code reads only `id` while fetching (__init__.py:237, 249) and the other fields later (sensor.py:39, 43-44; __init__.py:278-281, 301-305). It therefore returns such data, and the missing field only raises when an entity reads it. For example, an appliance without `nickname` that is not a smart meter is never read by the sensor platform. The model makes the whole fetch fail on it, and `ValidateToken` then reports InvalidAuth where the code accepts the token.
- The `DataUpdateCoordinator` is the host's, so only what the integration hands it is modelled: the name, the interval and the update method.
  - Left out: the initial `async_refresh`, the timer, the listeners, keeping the last good data, `async_request_refresh`, and the entity callbacks `async_added_to_hass` and `async_update`.
- `async_setup` is not modelled. It is file I/O with `aiofiles`, a listener on every event, a five-minute background task and the forwarding of the YAML configuration. This includes the `remove_listener` key it stores in `hass.data[DOMAIN]`.
- voluptuous schemas and `cv.string` are not modelled. The host checks a submitted form against its schema before the step runs. `ConfigFlow.IntervalAccepted` states what `vol.In` accepts, and `UserEntrySetsUp` takes that check as given.
- `async_forward_entry_setups`, the climate platform, `async_reload` and logging are not modelled. They are library code or code that is not shown. The reload is only its success flag.
- Sensor values are opaque JSON scalars. Floats are never interpreted.
- Concurrency and async scheduling are not modelled. Every coroutine is one sequential step.
- Integration.DomainStore.SetupEntry: the initial `async_refresh` (__init__.py:89) runs before the record is stored (line 96). Had it raised, the code would re-raise (line 93) and store nothing. The model assumes the refresh returns and always stores the record. It also leaves out the exceptions that the platform forwarding (line 106) could raise after the store. Both are host calls.
- Sensors.SetupEntities: it takes the coordinator's data directly. The lookup `hass.data[DOMAIN][entry_id]["coordinator"]` (sensor.py:29) is assumed to succeed.
- ConfigFlow.MigrateEntry: whether the host's `async_update_entry` accepts the `state` keyword is host code that is not shown, so it is the input `updateOk`.
- Integration.UpdateInterval: only integer and string values are modelled. A float or a boolean stored under `update_interval` is not, because the config flow only stores offered integers.
- ConfigFlow.StepImport: the `unknown` abort (config_flow.py:154-156) is not reachable. `_validate_token` turns every failure into InvalidAuth, and the model assumes that creating the entry does not raise.
- Api.Get: it requests the corrected URLs `https://api.nature.global/1/appliances` and `.../1/devices`. The code requests `.../1//appliances` and `.../1//devices` (__init__.py:233, 245), which `Api.ListUrlAsWritten` models; see Findings.
- ConfigFlow.StepUser: an exception from `async_remove` is swallowed, as in the source. A failed removal is modelled as leaving the registry unchanged.

## Findings

| source | as written | input that shows it | evidently intended | confidence | as-written member | corrected member |
|---|---|---|---|---|---|---|
| custom_components/nature_remo/__init__.py:233 | `f"{_RESOURCE}/appliances"` and `f"{_RESOURCE}/devices"` (line 245), where `_RESOURCE` (const.py:17) already ends in `/` | any call of `get`: it requests `https://api.nature.global/1//appliances` | `https://api.nature.global/1/appliances`, built the way `post` builds its URL | not executed; whether the server tolerates the empty path segment is unknown | Api.ListUrlAsWrittenDoublesSlash | Api.ListUrlIsSingleSlash |
| custom_components/nature_remo/sensor.py:90 | `SensorDeviceClass.power`, where the other sensors use upper-case members (`TEMPERATURE`, `HUMIDITY`, `ILLUMINANCE`) | reading `device_class` of any power entity raises AttributeError | `SensorDeviceClass.POWER` | not executed; relies on the host enum having only upper-case member names | Sensors.DeviceClassAsWrittenFailsForPower | Sensors.UnitAndClass |
