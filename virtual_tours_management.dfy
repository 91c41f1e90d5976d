/** The admin tour form and preview (src/pages/admin/VirtualToursManagement.tsx). */
module VirtualToursManagement {
  import opened Wrappers
  import opened Text
  import opened Records
  import VirtualTourButton

  /** `Partial<VirtualTour>` as the form holds it: a new tour has no id yet. */
  datatype TourForm = TourForm(
    id: Option<string>,
    title: string,
    description: string,
    tour_type: TourType,
    tour_url: string,
    thumbnail_url: string,
    property_id: Option<string>,
    plot_id: Option<string>,
    is_active: bool)

  /** JavaScript truthiness of a nullable id: `null` and `''` are falsy. */
  predicate Linked(o: Option<string>) {
    o.Some? && o.value != ""
  }

  /** `useState(tour || { ...defaults })`. */
  function FormOf(tour: Option<VirtualTour>): (f: TourForm)
    ensures tour.None? ==> f.property_id == None && f.plot_id == None
    ensures tour.None? ==> f.tour_type == Kuula && f.is_active && f.id == None
    ensures tour.None? ==> f.title == "" && f.description == "" && f.tour_url == "" && f.thumbnail_url == ""
    ensures tour.Some? ==> f.id == Some(tour.value.id) && f.tour_url == tour.value.tour_url
    ensures tour.Some? ==> f.property_id == tour.value.property_id && f.plot_id == tour.value.plot_id
    ensures tour.Some? ==> f.title == tour.value.title && f.description == tour.value.description
    ensures tour.Some? ==> f.tour_type == tour.value.tour_type && f.thumbnail_url == tour.value.thumbnail_url
    ensures tour.Some? ==> f.is_active == tour.value.is_active
  {
    match tour
    case None => TourForm(None, "", "", Kuula, "", "", None, None, true)
    case Some(t) =>
      TourForm(Some(t.id), t.title, t.description, t.tour_type, t.tour_url, t.thumbnail_url,
               t.property_id, t.plot_id, t.is_active)
  }

  datatype SubmitError = NoLink | BothLinks

  /** The alert shown for each rejection. */
  function Message(e: SubmitError): string {
    match e
    case NoLink => "Please select either a property or a plot"
    case BothLinks => "Please select only one - either a property or a plot, not both"
  }

  /** What the save mutation sends: an update by the edited tour's id, or an insert. */
  datatype SaveRequest = Update(id: string, data: TourForm) | Insert(data: TourForm)

  datatype Submission = Rejected(error: SubmitError) | Saved(request: SaveRequest)

  /** `handleSubmit` followed by `saveMutation`'s choice between update and insert. */
  function Submit(tour: Option<VirtualTour>, form: TourForm): (s: Submission)
    ensures s == Rejected(NoLink) <==> !Linked(form.property_id) && !Linked(form.plot_id)
    ensures s == Rejected(BothLinks) <==> Linked(form.property_id) && Linked(form.plot_id)
    ensures s.Saved? <==> Linked(form.property_id) != Linked(form.plot_id)
    ensures s.Saved? ==> s.request.data == form
    ensures s.Saved? ==> (s.request.Update? <==> tour.Some? && tour.value.id != "")
    ensures s.Saved? && s.request.Update? ==> s.request.id == tour.value.id
  {
    if !Linked(form.property_id) && !Linked(form.plot_id) then Rejected(NoLink)
    else if Linked(form.property_id) && Linked(form.plot_id) then Rejected(BothLinks)
    else if tour.Some? && tour.value.id != "" then Saved(Update(tour.value.id, form))
    else Saved(Insert(form))
  }

  /** An untouched new form is rejected for having no link. */
  lemma NewFormRejected()
    ensures Submit(None, FormOf(None)) == Rejected(NoLink)
  {
  }

  /** The form's change handlers; the two selects take the chosen option's value. */
  datatype TourEdit =
    | SetTitle(title: string)
    | SetDescription(description: string)
    | SetTourType(tourType: TourType)
    | SetActive(active: bool)
    | SetTourUrl(url: string)
    | SetThumbnail(thumbnail: string)
    | ChooseProperty(propertyChoice: string)
    | ChoosePlot(plotChoice: string)

  /** `e.target.value || null`: the empty option stores null. */
  function Choice(v: string): (o: Option<string>)
    ensures Linked(o) <==> v != ""
    ensures o.Some? ==> o.value == v
  {
    if v != "" then Some(v) else None
  }

  /**
   * The handlers: each text, type or flag handler writes its own field; the two selectors
   * write their choice and clear the other link. No handler touches the id.
   */
  function ApplyEdit(f: TourForm, e: TourEdit): (r: TourForm)
    ensures r.id == f.id
    ensures e.ChooseProperty? ==> r == f.(property_id := Choice(e.propertyChoice), plot_id := None)
    ensures e.ChoosePlot? ==> r == f.(plot_id := Choice(e.plotChoice), property_id := None)
    ensures !e.ChooseProperty? && !e.ChoosePlot? ==>
              r.property_id == f.property_id && r.plot_id == f.plot_id
    ensures e.SetTitle? ==> r == f.(title := e.title)
    ensures e.SetDescription? ==> r == f.(description := e.description)
    ensures e.SetTourType? ==> r == f.(tour_type := e.tourType)
    ensures e.SetActive? ==> r == f.(is_active := e.active)
    ensures e.SetTourUrl? ==> r == f.(tour_url := e.url)
    ensures e.SetThumbnail? ==> r == f.(thumbnail_url := e.thumbnail)
  {
    match e
    case SetTitle(s) => f.(title := s)
    case SetDescription(s) => f.(description := s)
    case SetTourType(t) => f.(tour_type := t)
    case SetActive(b) => f.(is_active := b)
    case SetTourUrl(s) => f.(tour_url := s)
    case SetThumbnail(s) => f.(thumbnail_url := s)
    case ChooseProperty(v) => f.(property_id := Choice(v), plot_id := None)
    case ChoosePlot(v) => f.(plot_id := Choice(v), property_id := None)
  }

  predicate AtMostOneLink(f: TourForm) {
    !(Linked(f.property_id) && Linked(f.plot_id))
  }

  /**
   * Choosing a property clears the plot and choosing a plot clears the property, so after
   * a choice at most one link is set, and no edit breaks "at most one link".
   */
  lemma EditsKeepAtMostOneLink(f: TourForm, e: TourEdit)
    ensures (e.ChooseProperty? || e.ChoosePlot?) ==> AtMostOneLink(ApplyEdit(f, e))
    ensures AtMostOneLink(f) ==> AtMostOneLink(ApplyEdit(f, e))
  {
  }

  /**
   * After choosing a property or a plot, `handleSubmit` saves exactly when the choice is not
   * empty. The browser's own checks of the required inputs come before it and are not modelled.
   */
  lemma ChoiceDecidesSubmission(tour: Option<VirtualTour>, f: TourForm, v: string)
    ensures Submit(tour, ApplyEdit(f, ChooseProperty(v))).Saved? <==> v != ""
    ensures Submit(tour, ApplyEdit(f, ChoosePlot(v))).Saved? <==> v != ""
  {
  }

  /** The `getEmbedCode` of `VirtualTourPreview`, as written out a second time in this file. */
  function PreviewEmbedCode(url: string): string {
    if Contains(url, "<iframe") then url
    else if Contains(url, "kuula.co") then
      "<iframe src=\"" + url + "\" width=\"100%\" height=\"600\" frameborder=\"0\" allow=\"xr-spatial-tracking; gyroscope; accelerometer\" allowfullscreen scrolling=\"no\"></iframe>"
    else if Contains(url, "matterport.com") then
      "<iframe src=\"" + url + "\" width=\"100%\" height=\"600\" frameborder=\"0\" allow=\"vr\" allowfullscreen></iframe>"
    else
      "<iframe src=\"" + url + "\" width=\"100%\" height=\"600\" frameborder=\"0\" allowfullscreen></iframe>"
  }

  /** The preview shows exactly what the public button shows. */
  lemma PreviewMatchesButton(url: string)
    ensures PreviewEmbedCode(url) == VirtualTourButton.EmbedCode(url)
  {
  }

  /** `VirtualTourModal`: the form state, replaced field by field by its handlers. */
  class TourModal {
    const tour: Option<VirtualTour>
    var formData: TourForm

    constructor (tour: Option<VirtualTour>)
      ensures this.tour == tour && formData == FormOf(tour)
    {
      this.tour := tour;
      formData := FormOf(tour);
    }

    /** One `onChange` handler: `setFormData({ ...formData, field: value })`. */
    method Edit(e: TourEdit)
      modifies this
      ensures formData == ApplyEdit(old(formData), e)
      ensures AtMostOneLink(old(formData)) ==> AtMostOneLink(formData)
    {
      EditsKeepAtMostOneLink(formData, e);
      formData := ApplyEdit(formData, e);
    }

    /** `handleSubmit`: the alert, or the request handed to the save mutation. */
    method HandleSubmit() returns (s: Submission)
      ensures s.Saved? <==> Linked(formData.property_id) != Linked(formData.plot_id)
      ensures s.Rejected? ==> Message(s.error) != ""
      ensures s.Saved? ==> s.request.data == formData
      ensures s.Saved? ==> (s.request.Update? <==> tour.Some? && tour.value.id != "")
      ensures s == Submit(tour, formData)
    {
      s := Submit(tour, formData);
    }
  }
}
