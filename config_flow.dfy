/**
 * The config flow (custom_components/nature_remo/config_flow.py): the
 * version 1 to 2 migration of an entry, and the user, import and reconfigure
 * steps as decisions over the current entries, the input and the outcome of
 * validating the token.
 */
module ConfigFlow {
  import opened Wrappers
  import opened ConfigEntries
  import Api
  import Const
  import Text
  import Integration

  const FlowVersion: int := 2

  // ---------------------------------------------------------------- migration

  /** `{**entry.data, "update_interval": 60}`. */
  function MigratedData(data: map<string, ConfigValue>): (r: map<string, ConfigValue>)
    ensures r.Keys == data.Keys + {Const.ConfUpdateInterval}
    ensures r[Const.ConfUpdateInterval] == CInt(60)
    ensures forall k :: k in data && k != Const.ConfUpdateInterval ==> r[k] == data[k]
  {
    data[Const.ConfUpdateInterval := CInt(Const.DefaultUpdateInterval)]
  }

  /** The entry after `async_migrate_entry` and what it returned. */
  datatype Migration = Migration(entry: ConfigEntry, migrated: bool)

  /**
   * `async_migrate_entry`. `updateOk` says whether the host accepted the
   * update of the entry; when it raises, the handler marks the entry
   * SETUP_ERROR, which itself takes effect only when `markOk`.
   */
  function MigrateEntry(entry: ConfigEntry, updateOk: bool, markOk: bool): (m: Migration)
    ensures m.migrated <==> entry.version == 1 && updateOk
    ensures m.migrated ==>
              && m.entry.data == MigratedData(entry.data) && m.entry.version == FlowVersion
              && m.entry.state == NotLoaded && m.entry.entryId == entry.entryId
    ensures entry.version != 1 ==> m.entry == entry
    ensures entry.version == 1 && !updateOk ==>
              m.entry == if markOk then entry.(state := SetupError) else entry
  {
    if entry.version == 1 then
      if updateOk then
        Migration(entry.(data := MigratedData(entry.data), version := FlowVersion, state := NotLoaded), true)
      else if markOk then Migration(entry.(state := SetupError), false)
      else Migration(entry, false)
    else Migration(entry, false)
  }

  /** A migrated entry is not migrated again: the second run changes nothing and returns false. */
  lemma MigrationRunsOnce(entry: ConfigEntry, updateOk: bool, markOk: bool, updateOk': bool, markOk': bool)
    requires MigrateEntry(entry, updateOk, markOk).migrated
    ensures var once := MigrateEntry(entry, updateOk, markOk).entry;
      MigrateEntry(once, updateOk', markOk') == Migration(once, false)
  {
  }

  // ---------------------------------------------------------------- forms

  /** A form shown to the user: step, field defaults, the interval choices, errors and placeholders. */
  datatype Form = Form(
    stepId: string, tokenDefault: Option<ConfigValue>, intervalDefault: ConfigValue,
    intervalChoices: seq<int>, errors: map<string, string>, placeholders: map<string, string>)

  datatype FlowResult =
    | Abort(reason: string)
    | CreateEntry(title: string, data: map<string, ConfigValue>)
    | ShowForm(form: Form)

  function MinOf(s: seq<int>): (m: int)
    requires s != []
    ensures m in s && forall i :: 0 <= i < |s| ==> m <= s[i]
  {
    if |s| == 1 then s[0]
    else
      var rest := MinOf(s[1..]);
      assert forall i :: 1 <= i < |s| ==> s[i] == s[1..][i - 1];
      if s[0] <= rest then s[0] else rest
  }

  function MaxOf(s: seq<int>): (m: int)
    requires s != []
    ensures m in s && forall i :: 0 <= i < |s| ==> s[i] <= m
  {
    if |s| == 1 then s[0]
    else
      var rest := MaxOf(s[1..]);
      assert forall i :: 1 <= i < |s| ==> s[i] == s[1..][i - 1];
      if s[0] >= rest then s[0] else rest
  }

  /** `description_placeholders` of both forms. */
  function Placeholders(): map<string, string> {
    map["url" := "https://home.nature.global",
        "min_interval" := Text.IntText(MinOf(Const.UpdateIntervalOptions)),
        "max_interval" := Text.IntText(MaxOf(Const.UpdateIntervalOptions))]
  }

  lemma MinOfIs(s: seq<int>, x: int)
    requires x in s && forall i :: 0 <= i < |s| ==> x <= s[i]
    ensures MinOf(s) == x
  {
    var m := MinOf(s);
    var j :| 0 <= j < |s| && s[j] == m;
    var k :| 0 <= k < |s| && s[k] == x;
  }

  lemma MaxOfIs(s: seq<int>, x: int)
    requires x in s && forall i :: 0 <= i < |s| ==> s[i] <= x
    ensures MaxOf(s) == x
  {
    var m := MaxOf(s);
    var j :| 0 <= j < |s| && s[j] == m;
    var k :| 0 <= k < |s| && s[k] == x;
  }

  /** The shortest offered interval is 10 seconds, the longest 120. */
  lemma IntervalBounds()
    ensures MinOf(Const.UpdateIntervalOptions) == 10 && MaxOf(Const.UpdateIntervalOptions) == 120
  {
    var opts := Const.UpdateIntervalOptions;
    assert opts[0] == 10 && opts[6] == 120;
    assert forall i :: 0 <= i < |opts| ==> 10 <= opts[i] <= 120;
    MinOfIs(opts, 10);
    MaxOfIs(opts, 120);
  }

  lemma TenText()
    ensures Text.IntText(10) == "10"
  {
    assert Text.DigitChar(1) == '1' && Text.DigitChar(0) == '0';
    assert Text.NatText(1) == ['1'];
    assert Text.NatText(10) == ['1', '0'];
  }

  lemma HundredTwentyText()
    ensures Text.IntText(120) == "120"
  {
    assert Text.DigitChar(1) == '1' && Text.DigitChar(2) == '2' && Text.DigitChar(0) == '0';
    assert Text.NatText(1) == ['1'];
    assert Text.NatText(12) == ['1', '2'];
    assert Text.NatText(120) == ['1', '2', '0'];
  }

  /** The placeholders read 10 and 120 seconds. */
  lemma PlaceholderBounds()
    ensures Placeholders()["min_interval"] == "10" && Placeholders()["max_interval"] == "120"
  {
    IntervalBounds();
    TenText();
    HundredTwentyText();
  }

  /** `vol.In(UPDATE_INTERVAL_OPTIONS)`: the interval field accepts exactly the listed numbers. */
  predicate IntervalAccepted(f: Form, v: ConfigValue) {
    v.CInt? && v.i in f.intervalChoices
  }

  function UserForm(errors: map<string, string>): Form {
    Form("user", None, CInt(Const.DefaultUpdateInterval), Const.UpdateIntervalOptions, errors, Placeholders())
  }

  /** The reconfigure form, prefilled from the entry's stored token and interval. */
  function ReconfigureForm(entry: ConfigEntry, errors: map<string, string>): Form {
    var token := match Lookup(entry.data, Const.ConfAccessToken) case Some(v) => v case None => CStr("");
    var interval := match Lookup(entry.data, Const.ConfUpdateInterval) case Some(v) => v case None => CInt(Const.DefaultUpdateInterval);
    Form("reconfigure", Some(token), interval, Const.UpdateIntervalOptions, errors, Placeholders())
  }

  /** The interval field of either form accepts only 10, 15, 30, 45, 60, 90 or 120 seconds. */
  lemma FormIntervalChoices(entry: ConfigEntry, errors: map<string, string>, v: ConfigValue)
    ensures v.CStr? ==> !IntervalAccepted(UserForm(errors), v)
    ensures IntervalAccepted(ReconfigureForm(entry, errors), v) <==> IntervalAccepted(UserForm(errors), v)
    ensures IntervalAccepted(UserForm(errors), UserForm(errors).intervalDefault)
  {
  }

  // ---------------------------------------------------------------- validation

  datatype Validation = TokenOk | InvalidAuth

  /**
   * `_validate_token`: run `get` with the token; any failure of either
   * request becomes InvalidAuth. `resp` is what the API answers for this token.
   */
  function ValidateToken(token: ConfigValue, resp: Api.Responses): (v: Validation)
    ensures v == TokenOk <==> resp.appliances.Success? && resp.devices.Success?
  {
    if Api.Get(Render(token), resp).outcome.Success? then TokenOk else InvalidAuth
  }

  function BaseError(code: string): map<string, string> {
    map["base" := code]
  }

  // ---------------------------------------------------------------- user step

  /** The index of the first entry in MIGRATION_ERROR or SETUP_ERROR. */
  function FirstErrorIndex(es: seq<ConfigEntry>): (r: Option<nat>)
    ensures r.None? <==> forall i :: 0 <= i < |es| ==> !IsErrorState(es[i].state)
    ensures r.Some? ==> r.value < |es| && IsErrorState(es[r.value].state)
    ensures r.Some? ==> forall i :: 0 <= i < r.value ==> !IsErrorState(es[i].state)
  {
    if es == [] then None
    else if IsErrorState(es[0].state) then Some(0)
    else match FirstErrorIndex(es[1..])
      case None => None
      case Some(i) => Some(i + 1)
  }

  /**
   * What the user step does with its input once it goes on: no input shows
   * the empty form; a missing field is an unexpected error; a token that fails
   * validation shows `invalid_auth`; otherwise an entry holding exactly the
   * token and the interval is created.
   */
  function UserInputOutcome(input: Option<map<string, ConfigValue>>, resp: Api.Responses): (r: FlowResult)
    ensures input.None? ==> r == ShowForm(UserForm(map[]))
    ensures r.CreateEntry? <==>
              && input.Some? && Const.ConfAccessToken in input.value && Const.ConfUpdateInterval in input.value
              && ValidateToken(input.value[Const.ConfAccessToken], resp) == TokenOk
    ensures r.CreateEntry? ==>
              && r.title == "Nature Remo"
              && r.data.Keys == {Const.ConfAccessToken, Const.ConfUpdateInterval}
              && r.data[Const.ConfAccessToken] == input.value[Const.ConfAccessToken]
              && r.data[Const.ConfUpdateInterval] == input.value[Const.ConfUpdateInterval]
    ensures input.Some? && Const.ConfAccessToken in input.value
              && ValidateToken(input.value[Const.ConfAccessToken], resp) == InvalidAuth ==>
              r == ShowForm(UserForm(map["base" := "invalid_auth"]))
    ensures !r.Abort?
  {
    match input
    case None => ShowForm(UserForm(map[]))
    case Some(data) =>
      if Const.ConfAccessToken !in data then ShowForm(UserForm(BaseError("unknown")))
      else if ValidateToken(data[Const.ConfAccessToken], resp) == InvalidAuth then
        ShowForm(UserForm(BaseError("invalid_auth")))
      else if Const.ConfUpdateInterval !in data then ShowForm(UserForm(BaseError("unknown")))
      else CreateEntry("Nature Remo", map[
        Const.ConfAccessToken := data[Const.ConfAccessToken],
        Const.ConfUpdateInterval := data[Const.ConfUpdateInterval]])
  }

  /**
   * The user step: with entries present and none in an error state it aborts
   * `already_configured`; otherwise the first error-state entry (if any) is
   * removed and the input is handled.
   */
  method StepUser(reg: Registry, input: Option<map<string, ConfigValue>>, resp: Api.Responses, removeOk: bool)
    returns (r: FlowResult)
    requires reg.Valid()
    modifies reg
    ensures reg.Valid()
    ensures old(reg.entries) != [] && FirstErrorIndex(old(reg.entries)).None? ==>
              r == Abort("already_configured") && reg.entries == old(reg.entries)
    ensures FirstErrorIndex(old(reg.entries)).Some? ==>
              && r == UserInputOutcome(input, resp)
              && reg.entries == if removeOk
                   then Without(old(reg.entries), old(reg.entries)[FirstErrorIndex(old(reg.entries)).value].entryId)
                   else old(reg.entries)
    ensures old(reg.entries) == [] ==> r == UserInputOutcome(input, resp) && reg.entries == []
  {
    var current := reg.entries;
    if current != [] {
      var i := 0;
      while i < |current|
        invariant 0 <= i <= |current|
        invariant reg.entries == current
        invariant forall j :: 0 <= j < i ==> !IsErrorState(current[j].state)
      {
        if IsErrorState(current[i].state) {
          reg.Remove(current[i].entryId, removeOk);
          break;
        }
        i := i + 1;
      }
      if i == |current| {
        return Abort("already_configured");
      }
      assert FirstErrorIndex(current) == Some(i);
    }
    r := UserInputOutcome(input, resp);
  }

  // ---------------------------------------------------------------- import step

  /**
   * The import step (YAML configuration): abort when an entry exists or the
   * token is missing or empty; otherwise validate it and create an entry with
   * the default interval, or abort `invalid_auth`.
   */
  function StepImport(entries: seq<ConfigEntry>, info: map<string, ConfigValue>, resp: Api.Responses): (r: FlowResult)
    ensures entries != [] ==> r == Abort("already_configured")
    ensures entries == [] && !Truthy(Lookup(info, Const.ConfAccessToken)) ==> r == Abort("invalid_yaml_config")
    ensures entries == [] && Truthy(Lookup(info, Const.ConfAccessToken)) ==>
              if ValidateToken(info[Const.ConfAccessToken], resp) == TokenOk
              then r == CreateEntry("Nature Remo", map[
                     Const.ConfAccessToken := info[Const.ConfAccessToken],
                     Const.ConfUpdateInterval := CInt(60)])
              else r == Abort("invalid_auth")
  {
    if entries != [] then Abort("already_configured")
    else
      var accessToken := Lookup(info, Const.ConfAccessToken);
      if !Truthy(accessToken) then Abort("invalid_yaml_config")
      else if ValidateToken(accessToken.value, resp) == TokenOk then
        CreateEntry("Nature Remo", map[
          Const.ConfAccessToken := accessToken.value,
          Const.ConfUpdateInterval := CInt(Const.DefaultUpdateInterval)])
      else Abort("invalid_auth")
  }

  /** An imported entry holds a token and an interval the user form would accept. */
  lemma ImportedEntryFitsForm(info: map<string, ConfigValue>, resp: Api.Responses)
    requires StepImport([], info, resp).CreateEntry?
    ensures var data := StepImport([], info, resp).data;
      && data.Keys == {Const.ConfAccessToken, Const.ConfUpdateInterval}
      && Truthy(Some(data[Const.ConfAccessToken]))
      && IntervalAccepted(UserForm(map[]), data[Const.ConfUpdateInterval])
  {
    var token := ImportedData(info, resp);
    ImportDataFits(token);
  }

  /** The data an import creates: the truthy token and the default interval. */
  lemma ImportedData(info: map<string, ConfigValue>, resp: Api.Responses) returns (token: ConfigValue)
    requires StepImport([], info, resp).CreateEntry?
    ensures Truthy(Some(token))
    ensures StepImport([], info, resp).data == map[Const.ConfAccessToken := token, Const.ConfUpdateInterval := CInt(60)]
  {
    token := info[Const.ConfAccessToken];
  }

  lemma ImportDataFits(token: ConfigValue)
    requires Truthy(Some(token))
    ensures var data := map[Const.ConfAccessToken := token, Const.ConfUpdateInterval := CInt(60)];
      && data.Keys == {Const.ConfAccessToken, Const.ConfUpdateInterval}
      && Truthy(Some(data[Const.ConfAccessToken]))
      && IntervalAccepted(UserForm(map[]), data[Const.ConfUpdateInterval])
  {
    assert Const.UpdateIntervalOptions[4] == 60;
  }

  // ---------------------------------------------------------------- entries the flow creates

  /**
   * What `async_setup_entry` needs of an entry's data: a token, and an
   * interval it can turn into a number of seconds.
   */
  predicate SetsUp(data: map<string, ConfigValue>) {
    Const.ConfAccessToken in data && Integration.UpdateInterval(data).Success?
  }

  /**
   * An entry created by the user step from input that passed the form's
   * schema sets up, polling at the chosen interval, one of the offered ones.
   */
  lemma UserEntrySetsUp(input: map<string, ConfigValue>, resp: Api.Responses)
    requires UserInputOutcome(Some(input), resp).CreateEntry?
    requires IntervalAccepted(UserForm(map[]), input[Const.ConfUpdateInterval])
    ensures var data := UserInputOutcome(Some(input), resp).data;
      && SetsUp(data)
      && Integration.UpdateInterval(data).value == input[Const.ConfUpdateInterval].i
      && Integration.UpdateInterval(data).value in Const.UpdateIntervalOptions
  {
    UserCreatedData(input, resp);
    CreatedDataSetsUp(input[Const.ConfAccessToken], input[Const.ConfUpdateInterval]);
  }

  /** The data the user step creates: the submitted token and interval. */
  lemma UserCreatedData(input: map<string, ConfigValue>, resp: Api.Responses)
    requires UserInputOutcome(Some(input), resp).CreateEntry?
    ensures Const.ConfAccessToken in input && Const.ConfUpdateInterval in input
    ensures UserInputOutcome(Some(input), resp).data
            == map[Const.ConfAccessToken := input[Const.ConfAccessToken],
                   Const.ConfUpdateInterval := input[Const.ConfUpdateInterval]]
  {
  }

  /** An offered interval passes `timedelta`, so data with it sets up. */
  lemma CreatedDataSetsUp(token: ConfigValue, interval: ConfigValue)
    requires IntervalAccepted(UserForm(map[]), interval)
    ensures var data := map[Const.ConfAccessToken := token, Const.ConfUpdateInterval := interval];
      && SetsUp(data)
      && Integration.UpdateInterval(data) == Success(interval.i)
      && interval.i in Const.UpdateIntervalOptions
  {
    var data := map[Const.ConfAccessToken := token, Const.ConfUpdateInterval := interval];
    assert Const.ConfUpdateInterval in data && data[Const.ConfUpdateInterval] == interval;
    OfferedIntervalFits(interval.i);
  }

  lemma OfferedIntervalFits(n: int)
    requires n in Const.UpdateIntervalOptions
    ensures Integration.TimedeltaFits(n)
  {
    var i :| 0 <= i < |Const.UpdateIntervalOptions| && Const.UpdateIntervalOptions[i] == n;
    assert 0 <= i < 7;
  }

  /** An imported entry sets up, polling every 60 seconds. */
  lemma ImportedEntrySetsUp(info: map<string, ConfigValue>, resp: Api.Responses)
    requires StepImport([], info, resp).CreateEntry?
    ensures SetsUp(StepImport([], info, resp).data)
    ensures Integration.UpdateInterval(StepImport([], info, resp).data) == Success(60)
  {
  }

  /**
   * A migrated entry keeps polling at the default: the interval it receives
   * is what setup had used on the version 1 data without one.
   */
  lemma MigratedEntryKeepsInterval(entry: ConfigEntry, updateOk: bool, markOk: bool)
    requires entry.version == 1 && Const.ConfUpdateInterval !in entry.data
    ensures var m := MigrateEntry(entry, updateOk, markOk);
      Integration.UpdateInterval(m.entry.data) == Integration.UpdateInterval(entry.data) == Success(60)
  {
  }

  // ---------------------------------------------------------------- reconfigure step

  /** What the reconfigure step decides for a healthy entry: its result and the new data, if any. */
  datatype Reconfigured = Reconfigured(result: FlowResult, newData: Option<map<string, ConfigValue>>)

  /** The entry data a reconfiguration writes: exactly the submitted token and interval. */
  function ReconfiguredData(input: map<string, ConfigValue>): (d: map<string, ConfigValue>)
    requires Const.ConfAccessToken in input && Const.ConfUpdateInterval in input
    ensures d.Keys == {Const.ConfAccessToken, Const.ConfUpdateInterval}
    ensures d[Const.ConfAccessToken] == input[Const.ConfAccessToken]
    ensures d[Const.ConfUpdateInterval] == input[Const.ConfUpdateInterval]
  {
    map[Const.ConfAccessToken := input[Const.ConfAccessToken],
        Const.ConfUpdateInterval := input[Const.ConfUpdateInterval]]
  }

  /**
   * Valid input replaces the entry's data and the entry is reloaded; the flow
   * then aborts `reconfigure_successful`. `reloadOk` says whether the host's
   * reload succeeded: when it raises, the new data stays and the form, now
   * prefilled from it, shows `unknown`.
   */
  function ReconfigureOutcome(entry: ConfigEntry, input: Option<map<string, ConfigValue>>,
                              resp: Api.Responses, reloadOk: bool): (r: Reconfigured)
    ensures r.result == Abort("reconfigure_successful") <==> r.newData.Some? && reloadOk
    ensures r.newData.Some? <==>
              && input.Some? && Const.ConfAccessToken in input.value && Const.ConfUpdateInterval in input.value
              && ValidateToken(input.value[Const.ConfAccessToken], resp) == TokenOk
    ensures r.newData.Some? ==> r.newData.value == ReconfiguredData(input.value)
    ensures r.newData.Some? && !reloadOk ==>
              r.result == ShowForm(ReconfigureForm(entry.(data := r.newData.value), map["base" := "unknown"]))
    ensures input.None? ==> r.result == ShowForm(ReconfigureForm(entry, map[]))
    ensures input.Some? && Const.ConfAccessToken in input.value
              && ValidateToken(input.value[Const.ConfAccessToken], resp) == InvalidAuth ==>
              r.result == ShowForm(ReconfigureForm(entry, map["base" := "invalid_auth"]))
    ensures !r.result.CreateEntry?
  {
    match input
    case None => Reconfigured(ShowForm(ReconfigureForm(entry, map[])), None)
    case Some(data) =>
      if Const.ConfAccessToken !in data then Reconfigured(ShowForm(ReconfigureForm(entry, BaseError("unknown"))), None)
      else if ValidateToken(data[Const.ConfAccessToken], resp) == InvalidAuth then
        Reconfigured(ShowForm(ReconfigureForm(entry, BaseError("invalid_auth"))), None)
      else if Const.ConfUpdateInterval !in data then
        Reconfigured(ShowForm(ReconfigureForm(entry, BaseError("unknown"))), None)
      else
        var newData := ReconfiguredData(data);
        if reloadOk then Reconfigured(Abort("reconfigure_successful"), Some(newData))
        else Reconfigured(ShowForm(ReconfigureForm(entry.(data := newData), BaseError("unknown"))), Some(newData))
  }

  /**
   * The reconfigure step for the entry named by the flow's context: abort
   * `not_found` without it; an entry in an error state is removed and the
   * input handed to the user step; otherwise as ReconfigureOutcome decides,
   * with the new data written into the registry. `removeOk` is the outcome of
   * this step's own `async_remove`, `userRemoveOk` that of the user step's.
   */
  method StepReconfigure(reg: Registry, entryId: string, input: Option<map<string, ConfigValue>>,
                         resp: Api.Responses, removeOk: bool, userRemoveOk: bool, reloadOk: bool)
    returns (r: FlowResult)
    requires reg.Valid()
    modifies reg
    ensures reg.Valid()
    ensures Find(old(reg.entries), entryId).None? ==>
              r == Abort("not_found") && reg.entries == old(reg.entries)
    ensures Find(old(reg.entries), entryId).Some? && !IsErrorState(Find(old(reg.entries), entryId).value.state) ==>
              var decided := ReconfigureOutcome(Find(old(reg.entries), entryId).value, input, resp, reloadOk);
              && r == decided.result
              && reg.entries == if decided.newData.Some?
                   then WithData(old(reg.entries), entryId, decided.newData.value)
                   else old(reg.entries)
    ensures Find(old(reg.entries), entryId).Some? && IsErrorState(Find(old(reg.entries), entryId).value.state) ==>
              var rest := if removeOk then Without(old(reg.entries), entryId) else old(reg.entries);
              && (rest != [] && FirstErrorIndex(rest).None? ==> r == Abort("already_configured"))
              && (rest == [] || FirstErrorIndex(rest).Some? ==> r == UserInputOutcome(input, resp))
              && reg.entries == if rest != [] && FirstErrorIndex(rest).Some? && userRemoveOk
                   then Without(rest, rest[FirstErrorIndex(rest).value].entryId)
                   else rest
  {
    var entry := Find(reg.entries, entryId);
    if entry.None? {
      return Abort("not_found");
    }
    if IsErrorState(entry.value.state) {
      reg.Remove(entryId, removeOk);
      r := StepUser(reg, input, resp, userRemoveOk);
      return;
    }
    var decided := ReconfigureOutcome(entry.value, input, resp, reloadOk);
    if decided.newData.Some? {
      reg.UpdateData(entryId, decided.newData.value);
    }
    r := decided.result;
  }
}
