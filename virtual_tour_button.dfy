/** The public virtual-tour button (src/components/VirtualTourButton.tsx). */
module VirtualTourButton {
  import opened Wrappers
  import opened Text
  import opened Records

  /** Every template opens the same way; the URL follows, then the template's attributes. */
  const IFRAME_OPEN: string := "<iframe src=\""
  const KUULA_ATTRS: string :=
    "\" width=\"100%\" height=\"600\" frameborder=\"0\" allow=\"xr-spatial-tracking; gyroscope; accelerometer\" allowfullscreen scrolling=\"no\"></iframe>"
  const MATTERPORT_ATTRS: string :=
    "\" width=\"100%\" height=\"600\" frameborder=\"0\" allow=\"vr\" allowfullscreen></iframe>"
  const GENERIC_ATTRS: string :=
    "\" width=\"100%\" height=\"600\" frameborder=\"0\" allowfullscreen></iframe>"

  datatype Template = Passthrough | KuulaFrame | MatterportFrame | GenericFrame

  /** The precedence of the substring tests: embed code, then Kuula, then Matterport. */
  function TemplateFor(url: string): (t: Template)
    ensures t == Passthrough <==> Contains(url, "<iframe")
    ensures t == KuulaFrame <==> !Contains(url, "<iframe") && Contains(url, "kuula.co")
    ensures t == MatterportFrame <==>
              !Contains(url, "<iframe") && !Contains(url, "kuula.co") && Contains(url, "matterport.com")
  {
    if Contains(url, "<iframe") then Passthrough
    else if Contains(url, "kuula.co") then KuulaFrame
    else if Contains(url, "matterport.com") then MatterportFrame
    else GenericFrame
  }

  function Attrs(t: Template): string
    requires t != Passthrough
  {
    match t
    case KuulaFrame => KUULA_ATTRS
    case MatterportFrame => MATTERPORT_ATTRS
    case GenericFrame => GENERIC_ATTRS
  }

  /** `getEmbedCode`: the HTML put into the modal for a tour URL. */
  function EmbedCode(url: string): string {
    if Contains(url, "<iframe") then url
    else if Contains(url, "kuula.co") then IFRAME_OPEN + url + KUULA_ATTRS
    else if Contains(url, "matterport.com") then IFRAME_OPEN + url + MATTERPORT_ATTRS
    else IFRAME_OPEN + url + GENERIC_ATTRS
  }

  /**
   * Embed code is passed through untouched; every other URL is wrapped, verbatim and
   * unescaped, between the fixed opening and the chosen template's attributes, so the URL
   * can be read back from between them.
   */
  lemma EmbedCodeWraps(url: string)
    ensures TemplateFor(url) == Passthrough ==> EmbedCode(url) == url
    ensures TemplateFor(url) != Passthrough ==>
              var r := EmbedCode(url);
              && r == IFRAME_OPEN + url + Attrs(TemplateFor(url))
              && IFRAME_OPEN <= r
              && r[|IFRAME_OPEN|..|r| - |Attrs(TemplateFor(url))|] == url
  {
    if TemplateFor(url) != Passthrough {
      var r := EmbedCode(url);
      var a := Attrs(TemplateFor(url));
      assert r == IFRAME_OPEN + url + a;
      assert r[|IFRAME_OPEN|..|r| - |a|] == url;
    }
  }

  /** Kuula wins when a URL names both hosts. */
  lemma KuulaBeforeMatterport(url: string)
    requires !Contains(url, "<iframe") && Contains(url, "kuula.co") && Contains(url, "matterport.com")
    ensures EmbedCode(url) == IFRAME_OPEN + url + KUULA_ATTRS
  {
  }

  /** Whatever the input, the output is embed code. */
  lemma EmbedCodeIsIframe(url: string)
    ensures Contains(EmbedCode(url), "<iframe")
  {
    if !Contains(url, "<iframe") {
      var r := EmbedCode(url);
      assert "<iframe" <= IFRAME_OPEN;
      assert "<iframe" <= r;
      ContainsPrefix(r, "<iframe");
    }
  }

  /** So embedding what `EmbedCode` returns changes nothing. */
  lemma EmbedCodeIdempotent(url: string)
    ensures EmbedCode(EmbedCode(url)) == EmbedCode(url)
  {
    EmbedCodeIsIframe(url);
  }

  /** What the open modal renders: the title, the embed HTML and the optional description. */
  datatype ModalView = ModalView(title: string, embedHtml: string, description: Option<string>)

  /** The button and its modal; `showModal` is the only state. */
  class TourButton {
    const tour: VirtualTour
    var showModal: bool

    constructor (tour: VirtualTour)
      ensures this.tour == tour && !showModal
    {
      this.tour := tour;
      showModal := false;
    }

    /** The button's click handler. */
    method Open()
      modifies this
      ensures showModal
    {
      showModal := true;
    }

    /** The close button of the modal. */
    method Close()
      modifies this
      ensures !showModal
    {
      showModal := false;
    }

    /**
     * The modal, present only while it is open; its description paragraph is rendered only
     * for a non-empty description.
     */
    function Modal(): (r: Option<ModalView>)
      reads this
      ensures r.Some? <==> showModal
      ensures r.Some? ==> r.value.title == tour.title && r.value.embedHtml == EmbedCode(tour.tour_url)
      ensures r.Some? ==> Contains(r.value.embedHtml, "<iframe")
      ensures r.Some? ==> (r.value.description.Some? <==> tour.description != "")
      ensures r.Some? && r.value.description.Some? ==> r.value.description.value == tour.description
    {
      EmbedCodeIsIframe(tour.tour_url);
      if showModal then
        Some(ModalView(tour.title, EmbedCode(tour.tour_url),
                       if tour.description != "" then Some(tour.description) else None))
      else None
    }
  }
}
