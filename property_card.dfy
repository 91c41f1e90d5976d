/** The property card of the public listings (src/components/PropertyCard.tsx). */
module PropertyCard {
  import opened Wrappers
  import opened Records
  import opened Text

  const FALLBACK_IMAGE := "https://images.unsplash.com/photo-1568605114967-8130f3a36994?w=800&h=600&fit=crop"

  /** `getStatusColor`: a switch on the lower-cased status. */
  function StatusColor(status: string): (b: Badge)
    ensures b == Green <==> Lower(status) == "active"
    ensures b == Blue <==> Lower(status) == "open house"
    ensures b == Red <==> Lower(status) == "sold"
    ensures b != Yellow
  {
    var s := Lower(status);
    if s == "active" then Green
    else if s == "open house" then Blue
    else if s == "sold" then Red
    else Gray
  }

  /** `Pending` has no case of its own and falls to gray; case does not matter. */
  lemma PendingIsGray(status: string)
    ensures StatusColor("Pending") == Gray
    ensures StatusColor(Lower(status)) == StatusColor(status)
  {
    LowerIdempotent(status);
    assert |Lower("Pending")| == 7;
  }

  /** The status as the listings store it, capitalised, is still blue. */
  lemma OpenHouseIsBlue()
    ensures StatusColor("Open House") == Blue
  {
    LowerOf("Open House", "open house");
  }

  /** `property.image_url || fallback`. */
  function ImageSrc(property: Property): (src: string)
    ensures property.image_url != "" ==> src == property.image_url
    ensures property.image_url == "" ==> src == FALLBACK_IMAGE
    ensures src != ""
  {
    if property.image_url != "" then property.image_url else FALLBACK_IMAGE
  }

  /** The name on the agent line, if the line is rendered. */
  function AgentLine(property: Property): (agent: Option<string>)
    ensures agent.Some? <==> property.agent_name != ""
    ensures agent.Some? ==> agent.value == property.agent_name
  {
    if property.agent_name != "" then Some(property.agent_name) else None
  }

  /** The tour handed to `VirtualTourButton`, if the button is rendered. */
  function TourButton(property: Property): (t: Option<VirtualTour>)
    ensures t.Some? <==> property.virtual_tour.Some? && property.virtual_tour.value.is_active
    ensures t.Some? ==> t == property.virtual_tour
  {
    if property.virtual_tour.Some? && property.virtual_tour.value.is_active then property.virtual_tour else None
  }

  /** Deactivating a property's tour hides the button and changes nothing else on the card. */
  lemma DeactivatedTourHidden(property: Property, tour: VirtualTour)
    ensures TourButton(property.(virtual_tour := Some(tour.(is_active := false)))).None?
    ensures TourButton(property.(virtual_tour := Some(tour.(is_active := true)))) == Some(tour.(is_active := true))
    ensures var p := property.(virtual_tour := Some(tour.(is_active := false)));
            ImageSrc(p) == ImageSrc(property) && AgentLine(p) == AgentLine(property) &&
            StatusColor(p.status) == StatusColor(property.status)
  {
  }
}
