/**
 * Row shapes of the hosted tables, as the pages read them. Timestamps (`created_at`,
 * `updated_at`) are not part of any rule modelled here and are omitted; nullable columns are
 * `Option`s; prices and amounts are unbounded integers.
 */
module Records {
  import opened Wrappers

  datatype Client = Client(
    id: string,
    name: string,
    email: string,
    phone: string,
    id_type: string,
    is_verified: bool,
    notes: string)

  datatype TourType = Kuula | Matterport | Embed | External

  datatype VirtualTour = VirtualTour(
    id: string,
    title: string,
    description: string,
    tour_type: TourType,
    tour_url: string,
    thumbnail_url: string,
    property_id: Option<string>,
    plot_id: Option<string>,
    is_active: bool)

  datatype Property = Property(
    id: string,
    title: string,
    location: string,
    city: string,
    price: int,
    status: string,
    image_url: string,
    agent_name: string,
    virtual_tour: Option<VirtualTour>)

  datatype Plot = Plot(
    id: string,
    plot_no: string,
    location: string,
    price: int,
    status: string,
    client_id: Option<string>,
    dimensions: string,
    client: Option<Client>)

  datatype SiteVisit = SiteVisit(
    id: string,
    client_name: string,
    preferred_date: string,
    status: string,
    notes: string)

  datatype Receipt = Receipt(
    id: string,
    receipt_no: string,
    client_id: string,
    property_id: Option<string>,
    plot_id: Option<string>,
    amount: int,
    payment_method: string,
    date: string,
    notes: string)

  datatype WebsiteContent = WebsiteContent(
    id: string,
    section: string,
    title: string,
    content: string,
    image_url: string,
    display_order: int,
    is_active: bool)

  /** The colour family of a status badge; the exact CSS classes are presentation. */
  datatype Badge = Green | Yellow | Red | Blue | Gray
}
