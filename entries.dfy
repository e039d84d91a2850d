/**
 * Home Assistant's config entries as the integration sees them: the values
 * stored in an entry, its lifecycle state, and the host's registry of the
 * integration's entries (which the config flow reads, removes from and updates).
 */
module ConfigEntries {
  import opened Wrappers
  import Text

  /** A value stored in an entry's data or given in a form (a string or a number). */
  datatype ConfigValue = CStr(s: string) | CInt(i: int)

  /** Python's `str(v)`, as an f-string renders it. */
  function Render(v: ConfigValue): (r: string)
    ensures v.CStr? ==> r == v.s
    ensures v.CInt? ==> var sign := if v.i < 0 then 1 else 0;
              && sign < |r| && (v.i < 0 <==> r[0] == '-')
              && (forall j :: sign <= j < |r| ==> '0' <= r[j] <= '9')
              && (|r| > sign + 1 ==> r[sign] != '0')
              && Text.DecimalValue(r[sign..]) == if v.i < 0 then -v.i else v.i
  {
    match v
    case CStr(s) => s
    case CInt(i) => Text.IntText(i)
  }

  /** Python truthiness of an optional value: None, "" and 0 are false. */
  predicate Truthy(v: Option<ConfigValue>) {
    match v
    case None => false
    case Some(CStr(s)) => s != ""
    case Some(CInt(i)) => i != 0
  }

  datatype EntryState =
    | NotLoaded | Loaded | SetupError | SetupRetry | SetupInProgress
    | MigrationError | FailedUnload | UnloadInProgress

  /** The two states in which the config flow discards an entry and starts over. */
  predicate IsErrorState(s: EntryState) {
    s == MigrationError || s == SetupError
  }

  datatype ConfigEntry = ConfigEntry(
    entryId: string, version: int, state: EntryState, data: map<string, ConfigValue>)

  /** `dict.get(key)`. */
  function Lookup(data: map<string, ConfigValue>, key: string): Option<ConfigValue> {
    if key in data then Some(data[key]) else None
  }

  predicate UniqueIds(es: seq<ConfigEntry>) {
    forall i, j :: 0 <= i < j < |es| ==> es[i].entryId != es[j].entryId
  }

  /** The entries with id `id` taken out, the others in order. */
  function Without(es: seq<ConfigEntry>, id: string): (r: seq<ConfigEntry>)
    ensures |r| <= |es|
    ensures forall e :: e in r <==> e in es && e.entryId != id
    ensures UniqueIds(es) ==> UniqueIds(r)
  {
    if es == [] then []
    else if es[0].entryId == id then Without(es[1..], id)
    else [es[0]] + Without(es[1..], id)
  }

  /** The entry with id `id`, with its data replaced. */
  function WithData(es: seq<ConfigEntry>, id: string, data: map<string, ConfigValue>): (r: seq<ConfigEntry>)
    ensures |r| == |es|
    ensures forall i :: 0 <= i < |es| ==>
              r[i] == if es[i].entryId == id then es[i].(data := data) else es[i]
    ensures forall i :: 0 <= i < |es| ==>
              r[i].entryId == es[i].entryId && r[i].version == es[i].version && r[i].state == es[i].state
    ensures UniqueIds(es) ==> UniqueIds(r)
  {
    seq(|es|, i requires 0 <= i < |es| => if es[i].entryId == id then es[i].(data := data) else es[i])
  }

  /** `async_get_entry(id)`: the entry with that id, if any. */
  function Find(es: seq<ConfigEntry>, id: string): (r: Option<ConfigEntry>)
    ensures r.None? <==> forall i :: 0 <= i < |es| ==> es[i].entryId != id
    ensures r.Some? ==> r.value in es && r.value.entryId == id
  {
    if es == [] then None
    else if es[0].entryId == id then Some(es[0])
    else Find(es[1..], id)
  }

  /**
   * After the update, looking the entry up finds it with the new data (ids are
   * unique), and an update of a missing id changes nothing.
   */
  lemma {:induction false} WithDataFinds(es: seq<ConfigEntry>, id: string, data: map<string, ConfigValue>)
    requires UniqueIds(es)
    ensures Find(es, id).None? ==> WithData(es, id, data) == es
    ensures Find(es, id).Some? ==> Find(WithData(es, id, data), id) == Some(Find(es, id).value.(data := data))
    decreases |es|
  {
    if es != [] {
      var r := WithData(es, id, data);
      assert r[1..] == WithData(es[1..], id, data);
      assert UniqueIds(es[1..]) by {
        forall i, j | 0 <= i < j < |es[1..]| ensures es[1..][i].entryId != es[1..][j].entryId {
          assert es[1..][i] == es[i + 1] && es[1..][j] == es[j + 1];
        }
      }
      WithDataFinds(es[1..], id, data);
      if es[0].entryId != id && Find(es, id).None? {
        assert r == [es[0]] + r[1..];
      }
    }
  }

  /** The host's registry of this integration's config entries. */
  class Registry {
    var entries: seq<ConfigEntry>

    ghost predicate Valid()
      reads this
    {
      UniqueIds(entries)
    }

    constructor (es: seq<ConfigEntry>)
      requires UniqueIds(es)
      ensures Valid() && entries == es
    {
      entries := es;
    }

    /** `async_remove(id)`; when the host fails (`ok` false) the error is swallowed and nothing changes. */
    method Remove(id: string, ok: bool)
      requires Valid()
      modifies this
      ensures Valid()
      ensures entries == if ok then Without(old(entries), id) else old(entries)
    {
      if ok {
        entries := Without(entries, id);
      }
    }

    /** `async_update_entry(entry, data=...)`. */
    method UpdateData(id: string, data: map<string, ConfigValue>)
      requires Valid()
      modifies this
      ensures Valid()
      ensures entries == WithData(old(entries), id, data)
    {
      entries := WithData(entries, id, data);
    }
  }
}
