/**
 Request status labels and the badge colour classes the request list shows for them.
 The labels are the Korean strings the service stores: "자료업로드" (materials
 uploaded), "분석완료" (analysis done) and "견적완료" (quotation done).
 */
module Status {

  import opened Options

  datatype Status = Uploaded | Analyzed | Quoted

  /** The stored label of each status. */
  function Label(st: Status): string
  {
    match st
    case Uploaded => "\U{C790}\U{B8CC}\U{C5C5}\U{B85C}\U{B4DC}"
    case Analyzed => "\U{BD84}\U{C11D}\U{C644}\U{B8CC}"
    case Quoted => "\U{ACAC}\U{C801}\U{C644}\U{B8CC}"
  }

  /** Reads a stored label back; any other text is not a known status. */
  function Parse(s: string): (r: Option<Status>)
    ensures forall st :: r == Some(st) <==> s == Label(st)
  {
    if s == Label(Uploaded) then Some(Uploaded)
    else if s == Label(Analyzed) then Some(Analyzed)
    else if s == Label(Quoted) then Some(Quoted)
    else None
  }

  /** Every label reads back as its own status, so distinct statuses have distinct labels. */
  lemma ParseLabel(st: Status)
    ensures Parse(Label(st)) == Some(st)
  {
  }

  /** The class for text that is not a known status. */
  const DefaultClass: string := "bg-gray-100"

  /** The colour classes of the three known statuses. */
  function ClassOf(st: Status): (r: string)
    ensures r != DefaultClass
  {
    match st
    case Uploaded => "bg-gray-200 text-gray-700"
    case Analyzed => "bg-blue-100 text-blue-700"
    case Quoted => "bg-green-100 text-green-700"
  }

  /** `getStatusColor`: the class of a known status, the default class for anything else. */
  function StatusColor(status: string): (r: string)
    ensures forall st :: status == Label(st) ==> r == ClassOf(st)
    ensures Parse(status).None? <==> r == DefaultClass
  {
    if status == Label(Uploaded) then ClassOf(Uploaded)
    else if status == Label(Analyzed) then ClassOf(Analyzed)
    else if status == Label(Quoted) then ClassOf(Quoted)
    else DefaultClass
  }

  /** Distinct statuses get distinct colours. */
  lemma StatusColorsDistinct(a: Status, b: Status)
    requires a != b
    ensures StatusColor(Label(a)) != StatusColor(Label(b))
  {
  }

  /** The status shown for a request: its stored status, or "materials uploaded" when it has none. */
  function DisplayStatus(stored: Option<string>): (r: string)
    ensures stored.None? || stored == Some("") ==> r == Label(Uploaded)
    ensures stored.Some? && stored.value != "" ==> r == stored.value
  {
    match stored
    case Some(s) => if s != "" then s else Label(Uploaded)
    case None => Label(Uploaded)
  }
}
