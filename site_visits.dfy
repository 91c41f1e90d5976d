/** The site-visit queue of the back office (src/pages/admin/SiteVisitsManagement.tsx). */
module SiteVisits {
  import opened Wrappers
  import opened Records

  /** `getStatusColor`: an exact, case-sensitive switch. */
  function StatusColor(status: string): (b: Badge)
    ensures b == Yellow <==> status == "Pending"
    ensures b == Blue <==> status == "Scheduled"
    ensures b == Green <==> status == "Completed"
    ensures b == Red <==> status == "Cancelled"
  {
    match status
    case "Pending" => Yellow
    case "Scheduled" => Blue
    case "Completed" => Green
    case "Cancelled" => Red
    case _ => Gray
  }

  /** The `<option>`s of the status select, in order. */
  const STATUS_OPTIONS: seq<string> := ["Pending", "Scheduled", "Completed", "Cancelled"]

  /** Every status the select offers gets a colour of its own. */
  lemma OptionsColored()
    ensures forall i :: 0 <= i < |STATUS_OPTIONS| ==> StatusColor(STATUS_OPTIONS[i]) != Gray
    ensures forall i, j :: 0 <= i < j < |STATUS_OPTIONS| ==>
      StatusColor(STATUS_OPTIONS[i]) != StatusColor(STATUS_OPTIONS[j])
  {
  }

  /** Matching is exact: a lower-case `pending` is gray. */
  lemma CaseSensitive()
    ensures StatusColor("pending") == Gray
    ensures StatusColor("PENDING") == Gray
  {
  }

  /** The `updateStatusMutation` variables: the row's id and the chosen option. */
  datatype StatusUpdate = StatusUpdate(id: string, status: string)

  function OnStatusChange(visit: SiteVisit, chosen: string): (u: StatusUpdate)
    ensures u.id == visit.id && u.status == chosen
  {
    StatusUpdate(visit.id, chosen)
  }

  /** The row after `.update({ status }).eq('id', id)`: only the status of that row. */
  function Apply(visit: SiteVisit, u: StatusUpdate): (v: SiteVisit)
    ensures u.id == visit.id ==> v == visit.(status := u.status)
    ensures u.id != visit.id ==> v == visit
  {
    if u.id == visit.id then visit.(status := u.status) else visit
  }

  /** Choosing an option recolours the row with that option's colour and touches nothing else. */
  lemma ChosenOptionShown(visit: SiteVisit, i: nat)
    requires i < |STATUS_OPTIONS|
    ensures Apply(visit, OnStatusChange(visit, STATUS_OPTIONS[i])).status == STATUS_OPTIONS[i]
    ensures StatusColor(Apply(visit, OnStatusChange(visit, STATUS_OPTIONS[i])).status) != Gray
    ensures Apply(visit, OnStatusChange(visit, STATUS_OPTIONS[i])).(status := visit.status) == visit
  {
    OptionsColored();
  }

  /** The notes paragraph, if it is rendered. */
  function NotesLine(visit: SiteVisit): (notes: Option<string>)
    ensures notes.Some? <==> visit.notes != ""
    ensures notes.Some? ==> notes.value == visit.notes
  {
    if visit.notes != "" then Some(visit.notes) else None
  }
}
