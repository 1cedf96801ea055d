/**
 * pages/HealthPage.tsx: an in-memory discharge log, newest first. The
 * screen has no storage: it holds no store and writes no key.
 */
module Health {

  datatype Region = Vaginal | Anal | Mouth | OtherRegion

  const Regions: seq<string> := ["Vaginal", "Anal", "Mouth", "Other"]

  /** The label of each region button. */
  function RegionName(r: Region): (s: string)
    ensures s in Regions
  {
    match r
    case Vaginal => "Vaginal"
    case Anal => "Anal"
    case Mouth => "Mouth"
    case OtherRegion => "Other"
  }

  /** Different buttons set different labels. */
  lemma RegionNamesDistinct(a: Region, b: Region)
    ensures RegionName(a) == RegionName(b) <==> a == b
  {
  }

  datatype Entry = Entry(id: int, loc: string, desc: string, date: string)

  /** The health screen's state. */
  class HealthScreen {
    var logs: seq<Entry>
    var loc: string
    var desc: string

    constructor ()
      ensures logs == [] && loc == "Vaginal" && desc == ""
    {
      logs := [];
      loc := "Vaginal";
      desc := "";
    }

    method SelectRegion(r: Region)
      modifies this`loc
      ensures loc == RegionName(r) && loc in Regions
    {
      loc := RegionName(r);
    }

    method DescInput(v: string)
      modifies this`desc
      ensures desc == v
    {
      desc := v;
    }

    /**
     * `addLog`: an empty description adds nothing; otherwise the entry goes
     * first, the older ones follow in order and the description is cleared.
     * `now` and `dateText` are `Date.now()` and `toLocaleDateString()`.
     */
    method AddLog(now: int, dateText: string)
      modifies this`logs, this`desc
      ensures old(desc) == "" ==> logs == old(logs) && desc == old(desc)
      ensures old(desc) != "" ==> logs == [Entry(now, loc, old(desc), dateText)] + old(logs) && desc == ""
      ensures old(desc) != "" ==> |logs| == |old(logs)| + 1 && logs[1..] == old(logs)
    {
      if desc == "" {
        return;
      }
      logs := [Entry(now, loc, desc, dateText)] + logs;
      desc := "";
    }
  }
}
