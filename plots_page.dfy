/** The public plots listing (src/pages/Plots.tsx). */
module PlotsPage {
  import opened Wrappers
  import opened Records
  import opened Text

  /** `getStatusColor`: a switch on the lower-cased status. */
  function StatusColor(status: string): (b: Badge)
    ensures b == Green <==> Lower(status) == "available"
    ensures b == Yellow <==> Lower(status) == "booked"
    ensures b == Red <==> Lower(status) == "sold"
    ensures b != Blue
  {
    var s := Lower(status);
    if s == "available" then Green
    else if s == "booked" then Yellow
    else if s == "sold" then Red
    else Gray
  }

  datatype Icon = CheckCircle | XCircle

  /** `getStatusIcon`. */
  function StatusIcon(status: string): (i: Icon)
    ensures i == XCircle <==> Lower(status) == "sold"
  {
    if Lower(status) == "sold" then XCircle else CheckCircle
  }

  /** The buyer's name in the "Sold to" block, if the block is rendered. */
  function SoldTo(plot: Plot): (buyer: Option<string>)
    ensures buyer.Some? <==> Lower(plot.status) == "sold" && plot.client.Some?
    ensures buyer.Some? ==> buyer.value == plot.client.value.name
  {
    if Lower(plot.status) == "sold" && plot.client.Some? then Some(plot.client.value.name) else None
  }

  /** The "Inquire Now" button. */
  predicate InquireShown(plot: Plot) {
    Lower(plot.status) == "available"
  }

  /** The colour, the icon and both blocks depend on the status only up to case. */
  lemma CaseInsensitive(status: string)
    ensures StatusColor(Lower(status)) == StatusColor(status)
    ensures StatusIcon(Lower(status)) == StatusIcon(status)
  {
    LowerIdempotent(status);
  }

  /** The red badge, the cross icon and "Sold to" go together; "Inquire Now" goes with green. */
  lemma BadgeIconAndBlocksAgree(plot: Plot)
    ensures StatusIcon(plot.status) == XCircle <==> StatusColor(plot.status) == Red
    ensures SoldTo(plot).Some? <==> StatusColor(plot.status) == Red && plot.client.Some?
    ensures InquireShown(plot) <==> StatusColor(plot.status) == Green
  {
  }

  /** A plot never offers "Inquire Now" while showing its buyer. */
  lemma SoldToExcludesInquire(plot: Plot)
    ensures !(SoldTo(plot).Some? && InquireShown(plot))
  {
  }

  /** An upper-case status from the database still gets its colour. */
  lemma UpperCaseSold()
    ensures StatusColor("SOLD") == Red && StatusIcon("SOLD") == XCircle
  {
    LowerOf("SOLD", "sold");
  }

  lemma CapitalisedAvailable()
    ensures StatusColor("Available") == Green
  {
    LowerOf("Available", "available");
  }

  /** A status the page has no case for is gray. */
  lemma PendingIsGray()
    ensures StatusColor("Pending") == Gray
  {
    assert |Lower("Pending")| == 7;
  }
}
