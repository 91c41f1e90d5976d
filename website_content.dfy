/** The website-copy editor (src/pages/admin/WebsiteContent.tsx). */
module WebsiteContent {
  import opened Wrappers
  import opened Records

  /** `Partial<WebsiteContent>` holding the fields the editor's inputs change. */
  datatype ContentEdit = ContentEdit(
    title: Option<string>,
    content: Option<string>,
    image_url: Option<string>,
    is_active: Option<bool>)

  const NO_EDIT: ContentEdit := ContentEdit(None, None, None, None)

  /** `Object.keys(edit).length`. */
  function FieldCount(e: ContentEdit): (n: nat)
    ensures n <= 4
    ensures n == 0 <==> e == NO_EDIT
  {
    (if e.title.Some? then 1 else 0) + (if e.content.Some? then 1 else 0) +
    (if e.image_url.Some? then 1 else 0) + (if e.is_active.Some? then 1 else 0)
  }

  /** The four `handleChange(id, field, value)` calls the page makes. */
  datatype FieldChange = Title(title: string) | Content(content: string)
                       | ImageUrl(url: string) | IsActive(active: bool)

  /** `{ ...prev[id], [field]: value }`. */
  function ApplyChange(e: ContentEdit, c: FieldChange): (r: ContentEdit)
    ensures FieldCount(r) > 0
    ensures c.Title? ==> r == e.(title := Some(c.title))
    ensures c.Content? ==> r == e.(content := Some(c.content))
    ensures c.ImageUrl? ==> r == e.(image_url := Some(c.url))
    ensures c.IsActive? ==> r == e.(is_active := Some(c.active))
  {
    match c
    case Title(s) => e.(title := Some(s))
    case Content(s) => e.(content := Some(s))
    case ImageUrl(s) => e.(image_url := Some(s))
    case IsActive(b) => e.(is_active := Some(b))
  }

  /** `editingContent[id] || {}`. */
  function EditFor(edits: map<string, ContentEdit>, id: string): ContentEdit {
    if id in edits then edits[id] else NO_EDIT
  }

  /** `x ?? y` for a value that is never null once present. */
  function Coalesce<T>(x: Option<T>, y: T): T {
    if x.Some? then x.value else y
  }

  /**
   * The row overlaid by its edits, edited fields winning. It is both what the inputs show
   * (`editedValues.title ?? content.title`, ...) and the save payload
   * (`{ id, ...content, ...updates }`).
   */
  function Overlay(e: ContentEdit, row: WebsiteContent): (r: WebsiteContent)
    ensures r.id == row.id && r.section == row.section && r.display_order == row.display_order
    ensures e.title.Some? ==> r.title == e.title.value
    ensures e.title.None? ==> r.title == row.title
    ensures e.content.Some? ==> r.content == e.content.value
    ensures e.content.None? ==> r.content == row.content
    ensures e.image_url.Some? ==> r.image_url == e.image_url.value
    ensures e.image_url.None? ==> r.image_url == row.image_url
    ensures e.is_active.Some? ==> r.is_active == e.is_active.value
    ensures e.is_active.None? ==> r.is_active == row.is_active
  {
    row.(title := Coalesce(e.title, row.title),
         content := Coalesce(e.content, row.content),
         image_url := Coalesce(e.image_url, row.image_url),
         is_active := Coalesce(e.is_active, row.is_active))
  }

  /** Without edits the payload is the stored row. */
  lemma NoEditIsStoredRow(row: WebsiteContent)
    ensures Overlay(NO_EDIT, row) == row
  {
  }

  /** An edit shows even when it is falsy: `??` is not `||`. */
  lemma FalsyEditsShow(e: ContentEdit, row: WebsiteContent)
    ensures Overlay(ApplyChange(e, Title("")), row).title == ""
    ensures !Overlay(ApplyChange(e, IsActive(false)), row).is_active
  {
  }

  /** The update `updateMutation` sends: four columns, keyed by id. */
  datatype ContentUpdate = ContentUpdate(
    id: string,
    title: string,
    content: string,
    image_url: string,
    is_active: bool)

  /** `updateMutation`: only title, content, image URL and active flag are written. */
  function UpdateOf(payload: WebsiteContent): (u: ContentUpdate)
    ensures u.id == payload.id && Stored(payload, u) == payload
  {
    ContentUpdate(payload.id, payload.title, payload.content, payload.image_url, payload.is_active)
  }

  /** Saving writes exactly what the inputs were showing. */
  lemma SavedIsDisplayed(e: ContentEdit, row: WebsiteContent)
    ensures var u := UpdateOf(Overlay(e, row));
            var d := Overlay(e, row);
            u.id == row.id && u.title == d.title && u.content == d.content &&
            u.image_url == d.image_url && u.is_active == d.is_active
  {
  }

  /** Applying an update to the stored row can change only the four written columns. */
  function Stored(row: WebsiteContent, u: ContentUpdate): (r: WebsiteContent)
    requires u.id == row.id
    ensures r.section == row.section && r.display_order == row.display_order && r.id == row.id
  {
    row.(title := u.title, content := u.content, image_url := u.image_url, is_active := u.is_active)
  }

  /** A saved row then reads back exactly as it was displayed while editing. */
  lemma SaveRoundTrip(e: ContentEdit, row: WebsiteContent)
    ensures Stored(row, UpdateOf(Overlay(e, row))) == Overlay(e, row)
  {
  }

  /** The `editingContent` dictionary of the page. */
  class ContentEditor {
    var edits: map<string, ContentEdit>

    /** Every entry was made by a change, so it has at least one field. */
    ghost predicate Valid()
      reads this
    {
      forall id :: id in edits ==> FieldCount(edits[id]) > 0
    }

    constructor ()
      ensures Valid() && edits == map[]
    {
      edits := map[];
    }

    /** `handleChange(id, field, value)`. */
    method HandleChange(id: string, c: FieldChange)
      requires Valid()
      modifies this
      ensures Valid()
      ensures edits == old(edits)[id := ApplyChange(EditFor(old(edits), id), c)]
      ensures SaveButtonShown(id)
      ensures forall other :: other != id ==> EditFor(edits, other) == EditFor(old(edits), other)
    {
      edits := edits[id := ApplyChange(EditFor(edits, id), c)];
    }

    /** `onSuccess` of the update: the whole buffer is cleared, other ids' edits included. */
    method SaveSucceeded()
      modifies this
      ensures Valid() && edits == map[]
    {
      edits := map[];
    }

    /** The "Save Changes" button: `Object.keys(editingContent[id] || {}).length > 0`. */
    function SaveButtonShown(id: string): (shown: bool)
      reads this
      ensures shown <==> id in edits && edits[id] != NO_EDIT
    {
      FieldCount(EditFor(edits, id)) > 0
    }

    /** What the inputs show for a stored row. */
    function Displayed(row: WebsiteContent): (r: WebsiteContent)
      reads this
      ensures row.id !in edits ==> r == row
    {
      Overlay(EditFor(edits, row.id), row)
    }

    /** `handleSave(content)`: the update handed to the mutation. */
    method HandleSave(row: WebsiteContent) returns (u: ContentUpdate)
      ensures u.id == row.id
      ensures Stored(row, u) == Displayed(row)
    {
      var updates := EditFor(edits, row.id);
      var payload := Overlay(updates, row);
      u := UpdateOf(payload);
    }
  }

  /** With only valid entries, the button shows exactly for the ids with pending edits. */
  lemma ButtonShownIffPending(c: ContentEditor, id: string)
    requires c.Valid()
    ensures c.SaveButtonShown(id) <==> id in c.edits
  {
  }
}
