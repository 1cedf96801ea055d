/**
 * The browser's local storage as the application uses it: four keys, each
 * holding one serialised document. Documents are kept decoded; a stored text
 * that `JSON.parse` rejects is `Unparseable`.
 */
module Records {
  import opened Types

  const UserKey := "safe_space_user"
  const HealthLogsKey := "safe_space_health_logs"
  const PeriodsKey := "safe_space_periods"
  const TraumaKey := "safe_space_trauma_dump"

  datatype Doc =
    | TextDoc(text: string)                 // a plain string value
    | ProfileDoc(profile: Profile)          // JSON of a profile
    | LogListDoc(logs: seq<HealthLog>)      // JSON of a list of health-log entries
    | DayListDoc(days: seq<string>)         // JSON of a list of day strings
    | Unparseable                           // a text that is not JSON

  /**
   * The narrative key, when present, holds text: the chat and the report
   * builder read it as a raw string and write only text there.
   */
  predicate TraumaReadable(m: map<string, Doc>)
  {
    TraumaKey in m ==> m[TraumaKey].TextDoc?
  }

  /**
   * What the tracker's unguarded `JSON.parse` accepts: each tracker key, when
   * present, holds its list, or the empty string the `saved ? … : []` test
   * treats as absent.
   */
  predicate TrackerReadable(m: map<string, Doc>)
  {
    && (HealthLogsKey in m ==> m[HealthLogsKey].LogListDoc? || m[HealthLogsKey] == TextDoc(""))
    && (PeriodsKey in m ==> m[PeriodsKey].DayListDoc? || m[PeriodsKey] == TextDoc(""))
  }

  /** `localStorage.getItem('safe_space_trauma_dump') || ""`. */
  function TraumaText(m: map<string, Doc>): (r: string)
    requires TraumaReadable(m)
    ensures TraumaKey !in m ==> r == ""
    ensures TraumaKey in m ==> r == m[TraumaKey].text
  {
    if TraumaKey in m then m[TraumaKey].text else ""
  }

  /** The key-value store shared by every screen. */
  class Store {
    var entries: map<string, Doc>

    constructor (initial: map<string, Doc>)
      ensures entries == initial
    {
      entries := initial;
    }

    /** `localStorage.setItem(key, value)`. */
    method SetItem(key: string, doc: Doc)
      modifies this
      ensures entries == old(entries)[key := doc]
    {
      entries := entries[key := doc];
    }

    /** `localStorage.removeItem(key)`. */
    method RemoveItem(key: string)
      modifies this
      ensures entries == old(entries) - {key}
    {
      entries := entries - {key};
    }

    /** `localStorage.clear()`. */
    method Clear()
      modifies this
      ensures entries == map[]
    {
      entries := map[];
    }
  }
}
