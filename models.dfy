/** The record schema of the tracker (src/models.rs): an application, its status and
    the platform it was sent through, with the fixed option tables the form offers. */
module Models {

  datatype Status = Applied | Interview | Offer | Rejected

  /** `Status::all()`: the dropdown order, which is also the status chart's bar order. */
  function AllStatuses(): seq<Status> {
    [Applied, Interview, Offer, Rejected]
  }

  function StatusAsStr(s: Status): string {
    match s
    case Applied => "Applied"
    case Interview => "Interview"
    case Offer => "Offer"
    case Rejected => "Rejected"
  }

  /** `Status::default()`. */
  function DefaultStatus(): Status {
    Applied
  }

  /** `Status::all()` lists every status exactly once, and the labels tell statuses apart. */
  lemma AllStatusesEnumerates(s: Status, t: Status)
    ensures |AllStatuses()| == 4 && s in AllStatuses()
    ensures forall i, j :: 0 <= i < j < |AllStatuses()| ==> AllStatuses()[i] != AllStatuses()[j]
    ensures StatusAsStr(s) == StatusAsStr(t) ==> s == t
  {
  }

  datatype Platform = LinkedIn | Indeed | CompanyWebsite | Other(name: string)

  /** `Platform::presets()`: the labels of the platform dropdown, "Other" last. */
  function Presets(): seq<string> {
    ["LinkedIn", "Indeed", "Company Website", "Other"]
  }

  /** The labels `from_str` recognises as named platforms. */
  predicate IsNamedLabel(s: string) {
    s == "LinkedIn" || s == "Indeed" || s == "Company Website"
  }

  function PlatformFromStr(s: string): (p: Platform)
    ensures p.Other? <==> !IsNamedLabel(s)
  {
    if s == "LinkedIn" then LinkedIn
    else if s == "Indeed" then Indeed
    else if s == "Company Website" then CompanyWebsite
    else Other(s)
  }

  /** `Platform::as_str`: the label shown in the list and the platform chart. */
  function PlatformAsStr(p: Platform): string {
    match p
    case LinkedIn => "LinkedIn"
    case Indeed => "Indeed"
    case CompanyWebsite => "Company Website"
    case Other(s) => s
  }

  /** `Platform::default()`. */
  function DefaultPlatform(): Platform {
    LinkedIn
  }

  /** Reading a label and printing it back always gives the label. */
  lemma AsStrFromStr(s: string)
    ensures PlatformAsStr(PlatformFromStr(s)) == s
  {
  }

  /** Printing a platform and reading it back gives the platform, except for a custom
      platform whose text is the label of a named one. */
  lemma FromStrAsStr(p: Platform)
    ensures PlatformFromStr(PlatformAsStr(p)) == p <==> !(p.Other? && IsNamedLabel(p.name))
  {
  }

  /** The preset table has four entries, the last one "Other", and choosing it yields a
      custom platform whose text is literally "Other". */
  lemma PresetsShape()
    ensures |Presets()| == 4 && Presets()[3] == "Other"
    ensures forall i :: 0 <= i < 3 ==> IsNamedLabel(Presets()[i])
    ensures PlatformFromStr(Presets()[3]) == Other("Other")
  {
  }

  /** `chrono::NaiveDate`; which triples are real dates is decided by the date parser. */
  datatype Date = Date(year: int, month: int, day: int)

  datatype Application = Application(
    companyName: string,
    platform: Platform,
    resumeModified: bool,
    resumeVersion: string,
    status: Status,
    appliedDate: Date,
    notes: string)

  /** `Application::new()`, with the clock's current local date passed in as `today`. */
  function NewApplication(today: Date): (a: Application)
    ensures a.companyName == [] && a.resumeVersion == [] && a.notes == []
    ensures a.platform == LinkedIn && a.status == Applied && !a.resumeModified
    ensures a.appliedDate == today
  {
    Application("", DefaultPlatform(), false, "", DefaultStatus(), today, "")
  }
}
