/**
 * The cloud API client `NatureRemoAPI` (custom_components/nature_remo/__init__.py):
 * the two list requests that make up a snapshot, and the generic POST.
 * The HTTP session is not modelled; what it answers is an input.
 */
module Api {
  import opened Wrappers
  import opened Dicts
  import Const

  type Id = string

  /** A JSON scalar as the API sent it (a reading, a property value); never interpreted here. */
  datatype Val = Val(raw: string)

  /** One ECHONET Lite property of a smart meter: its property code and value. */
  datatype Property = Property(epc: int, val: Val)

  datatype SmartMeter = SmartMeter(echonetliteProperties: seq<Property>)

  /** The newest event of one sensor kind of a device. */
  datatype Event = Event(val: Val)

  /** The device object embedded in an appliance. */
  datatype DeviceRef = DeviceRef(id: Id, name: string, serialNumber: string, firmwareVersion: string)

  /** A device from `GET /devices`; `newestEvents` is keyed by sensor kind ("te", "hu", "il", ...). */
  datatype Device = Device(
    id: Id, name: string, serialNumber: string, firmwareVersion: string,
    newestEvents: ValidDict<string, Event>)

  /** An appliance from `GET /appliances`; only smart meters carry `smart_meter`. */
  datatype Appliance = Appliance(
    id: Id, nickname: string, kind: string, device: DeviceRef,
    smartMeter: Option<SmartMeter>)

  /** What `get` returns: the dictionaries `appliances` and `devices`, keyed by id. */
  datatype Snapshot = Snapshot(appliances: ValidDict<Id, Appliance>, devices: ValidDict<Id, Device>)

  /**
   * Why a request failed: a status rejected by `raise_for_status`, a transport
   * failure, or a body that is not a JSON array of objects with an `id`.
   */
  datatype Error = HttpStatus(status: int) | Transport | BadBody

  datatype Verb = GET | POST

  datatype Request = Request(verb: Verb, url: string, headers: map<string, string>, form: map<string, string>)

  /** What the session answers to the appliances and to the devices request. */
  datatype Responses = Responses(
    appliances: Result<seq<Appliance>, Error>,
    devices: Result<seq<Device>, Error>)

  /** The requests `get` issued, in order, and what it returned or raised. */
  datatype Fetch = Fetch(issued: seq<Request>, outcome: Result<Snapshot, Error>)

  /** The request of `post` and what it returned or raised. */
  datatype Exchange = Exchange(request: Request, outcome: Result<Val, Error>)

  function AuthHeaders(token: string): (h: map<string, string>)
    ensures h.Keys == {"Authorization"}
  {
    map["Authorization" := "Bearer " + token]
  }

  /** The URL of a list endpoint as the client writes it: `f"{_RESOURCE}/appliances"`. */
  function ListUrlAsWritten(endpoint: string): string {
    Const.Resource + "/" + endpoint
  }

  /** The URL of a list endpoint as intended: the base URL already ends with a slash. */
  function ListUrl(endpoint: string): string {
    Const.Resource + endpoint
  }

  /** The URL of `post`: `f"{_RESOURCE}{path}"`. */
  function PostUrl(path: string): string {
    Const.Resource + path
  }

  /** The written list URL always has an empty path segment right after the base URL. */
  lemma ListUrlAsWrittenDoublesSlash(endpoint: string)
    ensures ListUrlAsWritten(endpoint)[|Const.Resource| - 1..|Const.Resource| + 1] == "//"
    ensures ListUrlAsWritten("appliances") == "https://api.nature.global/1//appliances"
  {
  }

  /** The corrected list URL is the base URL followed by the endpoint, as `post` builds its URLs. */
  lemma ListUrlIsSingleSlash(endpoint: string)
    requires endpoint == [] || endpoint[0] != '/'
    ensures ListUrl(endpoint) == PostUrl(endpoint)
    ensures ListUrl(endpoint)[..|Const.Resource|] == Const.Resource
    ensures |endpoint| > 0 ==> ListUrl(endpoint)[|Const.Resource| - 1..|Const.Resource| + 1] != "//"
    ensures ListUrl("appliances") == "https://api.nature.global/1/appliances"
  {
    if |endpoint| > 0 {
      assert ListUrl(endpoint)[|Const.Resource|] == endpoint[0];
    }
  }

  function ListRequest(token: string, endpoint: string): Request {
    Request(GET, ListUrl(endpoint), AuthHeaders(token), map[])
  }

  function ApplianceId(a: Appliance): Id { a.id }
  function DeviceId(d: Device): Id { d.id }

  /**
   * `NatureRemoAPI.get`: fetch the appliances, then the devices, and key each
   * list by id. A failure of either request is raised as it is; the devices
   * request is only issued once the appliances request succeeded.
   */
  function Get(token: string, resp: Responses): (f: Fetch)
    ensures 1 <= |f.issued| <= 2 && f.issued[0] == ListRequest(token, "appliances")
    ensures |f.issued| == 2 <==> resp.appliances.Success?
    ensures |f.issued| == 2 ==> f.issued[1] == ListRequest(token, "devices")
    ensures forall i :: 0 <= i < |f.issued| ==>
              f.issued[i].verb == GET && f.issued[i].headers["Authorization"] == "Bearer " + token
    ensures f.outcome.Success? <==> resp.appliances.Success? && resp.devices.Success?
    ensures resp.appliances.Failure? ==> f.outcome == Failure(resp.appliances.error)
    ensures resp.appliances.Success? && resp.devices.Failure? ==> f.outcome == Failure(resp.devices.error)
    ensures f.outcome.Success? ==>
              && f.outcome.value.appliances.entries.Keys == KeysOf(resp.appliances.value, ApplianceId)
              && (forall k :: k in f.outcome.value.appliances.entries ==> f.outcome.value.appliances.entries[k].id == k)
              && f.outcome.value.devices.entries.Keys == KeysOf(resp.devices.value, DeviceId)
              && (forall k :: k in f.outcome.value.devices.entries ==> f.outcome.value.devices.entries[k].id == k)
  {
    var first := ListRequest(token, "appliances");
    match resp.appliances
    case Failure(e) => Fetch([first], Failure(e))
    case Success(appliancesData) =>
      var appliances := ByKey(appliancesData, ApplianceId);
      var second := ListRequest(token, "devices");
      match resp.devices
      case Failure(e) => Fetch([first, second], Failure(e))
      case Success(devicesData) =>
        var devices := ByKey(devicesData, DeviceId);
        Fetch([first, second], Success(Snapshot(appliances, devices)))
  }

  /** Duplicate ids in either response: the snapshot keeps the last element with that id. */
  lemma GetLastWins(token: string, resp: Responses, k: Id)
    requires Get(token, resp).outcome.Success?
    ensures var s := Get(token, resp).outcome.value;
      && (k in s.appliances.entries ==>
            exists i :: 0 <= i < |resp.appliances.value| && resp.appliances.value[i] == s.appliances.entries[k]
              && forall j :: i < j < |resp.appliances.value| ==> resp.appliances.value[j].id != k)
      && (k in s.devices.entries ==>
            exists i :: 0 <= i < |resp.devices.value| && resp.devices.value[i] == s.devices.entries[k]
              && forall j :: i < j < |resp.devices.value| ==> resp.devices.value[j].id != k)
  {
    var s := Get(token, resp).outcome.value;
    if k in s.appliances.entries {
      ByKeyLastWins(resp.appliances.value, ApplianceId, k);
    }
    if k in s.devices.entries {
      ByKeyLastWins(resp.devices.value, DeviceId, k);
    }
  }

  /**
   * `NatureRemoAPI.post`: one POST of the form data to the base URL followed by
   * the path, with the bearer token; the response or the failure passes through.
   */
  function Post(token: string, path: string, data: map<string, string>, response: Result<Val, Error>): (x: Exchange)
    ensures x.request.verb == POST && x.request.url == PostUrl(path) && x.request.form == data
    ensures x.request.headers.Keys == {"Authorization"} && x.request.headers["Authorization"] == "Bearer " + token
    ensures x.outcome == response
  {
    Exchange(Request(POST, PostUrl(path), AuthHeaders(token), data), response)
  }
}
