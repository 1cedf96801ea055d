/**
 * pages/JusticePage.tsx: the report builder. It starts from the trauma dump
 * the chat writes, lets case-category context be added once per category,
 * and asks for a structured case report.
 */
module Justice {
  import opened Wrappers
  import opened Strings
  import opened Records

  /** The structured case report the report service returns. */
  datatype Report = Report(
    caseSummary: string,
    forensicHighlights: seq<string>,
    policeQuestions: seq<string>,
    legalProvisions: seq<string>
  )

  datatype Template = Template(id: string, title: string, prompt: string)

  const CaseTemplates: seq<Template> := [
    Template("physical", "Physical Assault", "Context: Severe physical altercation, visible injuries, immediate danger reported."),
    Template("digital", "Digital Harassment", "Context: Non-consensual image sharing (NCII), cyber-stalking, digital evidence across platforms."),
    Template("workplace", "Workplace Incident", "Context: Harassment within a professional environment, power dynamics, witness accounts mentioned."),
    Template("domestic", "Domestic Abuse", "Context: Pattern of control/abuse at home, financial dependence, child safety concerns.")
  ]

  const CategoryHead := "\n[CASE CATEGORY: "

  /** The context line a template adds: the prompt on a line of its own, in a `[CASE CATEGORY: …]` frame. */
  function CategoryTag(prompt: string): (r: string)
    ensures |r| == |CategoryHead| + |prompt| + 2
    ensures r[..|CategoryHead|] == CategoryHead && r[|CategoryHead|..|CategoryHead| + |prompt|] == prompt
    ensures r[|r| - 2..] == "]\n"
  {
    "\n[CASE CATEGORY: " + prompt + "]\n"
  }

  /** `handleApplyTemplate`'s text update: the category line is appended unless the logs already contain it. */
  function WithCategory(logs: string, prompt: string): (r: string)
    ensures |r| >= |logs| && r[..|logs|] == logs
    ensures Contains(logs, CategoryTag(prompt)) ==> r == logs
    ensures !Contains(logs, CategoryTag(prompt)) ==> r == logs + CategoryTag(prompt)
  {
    var tag := CategoryTag(prompt);
    if Contains(logs, tag) then logs else logs + tag
  }

  /** After a template is applied its category line is in the logs, so applying it again changes nothing. */
  lemma ApplyTemplateIdempotent(logs: string, prompt: string)
    ensures Contains(WithCategory(logs, prompt), CategoryTag(prompt))
    ensures WithCategory(WithCategory(logs, prompt), prompt) == WithCategory(logs, prompt)
  {
    if !Contains(logs, CategoryTag(prompt)) {
      EndsWithContains(logs, CategoryTag(prompt));
    }
  }

  /** The report builder's state. */
  class JusticeScreen {
    var loading: bool
    var report: Option<Report>
    var traumaLogs: string
    var selectedTemplate: Option<string>
    const store: Store

    /** After the mount effect: the logs are the stored trauma dump, or "" when there is none. */
    constructor (store: Store)
      requires TraumaReadable(store.entries)
      ensures this.store == store
      ensures traumaLogs == TraumaText(store.entries) && (TraumaKey !in store.entries ==> traumaLogs == "")
      ensures !loading && report == None && selectedTemplate == None
    {
      this.store := store;
      loading := false;
      report := None;
      traumaLogs := TraumaText(store.entries);
      selectedTemplate := None;
    }

    /** `handleApplyTemplate(id, prompt)`: the template is selected whether or not text was added. */
    method ApplyTemplate(id: string, prompt: string)
      modifies this`selectedTemplate, this`traumaLogs
      ensures selectedTemplate == Some(id)
      ensures traumaLogs == WithCategory(old(traumaLogs), prompt)
    {
      selectedTemplate := Some(id);
      traumaLogs := WithCategory(traumaLogs, prompt);
    }

    /** Editing the testimony box. */
    method LogsInput(v: string)
      modifies this`traumaLogs
      ensures traumaLogs == v
    {
      traumaLogs := v;
    }

    /**
     * `handleGenerateReport` up to the awaited call: whitespace-only logs are
     * refused with nothing requested; otherwise loading starts and the logs
     * are what is sent.
     */
    method BeginGenerate() returns (requested: Option<string>)
      modifies this`loading
      ensures IsBlank(traumaLogs) ==> requested == None && loading == old(loading)
      ensures !IsBlank(traumaLogs) ==> requested == Some(traumaLogs) && loading
    {
      if IsBlank(traumaLogs) {
        return None;
      }
      loading := true;
      requested := Some(traumaLogs);
    }

    /** The awaited result: a report replaces the old one, a failure keeps it; loading ends either way. */
    method FinishGenerate(result: Option<Report>) returns (failed: bool)
      modifies this`report, this`loading
      ensures report == if result.Some? then result else old(report)
      ensures failed == result.None? && !loading
    {
      if result.Some? {
        report := result;
      }
      failed := result.None?;
      loading := false;
    }

    /** `handleDownloadReport`: the report to export, or nothing when there is none. */
    method Download() returns (file: Option<Report>)
      ensures file == report
    {
      if report.None? {
        return None;
      }
      file := report;
    }
  }
}
