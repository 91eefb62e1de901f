/**
 * The blog posts page. Its handlers only sequence calls to the API, so the page is
 * modelled as the payloads it sends and the form states it moves between; whether a
 * call succeeded is a parameter.
 */
module Blog {
  import opened Wrappers
  import Js

  const DefaultImage := "https://images.unsplash.com/photo-1516426122078-c23e76319801"
  const DefaultReadTime := "5 min"

  /** A post as the API returns it; optional members may be missing. */
  datatype Post = Post(
    id: string, title: string, category: string, excerpt: Option<string>, content: Option<string>,
    imageUrl: Option<string>, readTime: Option<string>, published: Option<bool>)

  /** The edit form. `image_url` is copied from a post as is, so it may be missing. */
  datatype Form = Form(
    title: string, category: string, excerpt: string, content: string,
    imageUrl: Option<string>, readTime: string, published: bool)

  const EmptyForm := Form("", "", "", "", Some(""), "", true)

  /** The body of a create or update call. */
  datatype Payload = Payload(
    title: string, category: string, excerpt: string, content: string,
    imageUrl: Option<string>, readTime: string, published: bool)

  datatype PageState = PageState(editingId: Option<string>, showAddModal: bool, form: Form, imagePreview: Option<string>)

  predicate CanAdd(f: Form) {
    f.title != "" && f.category != ""
  }

  /** The body `handleAdd` sends: the form, with the image and reading time defaulted when empty. */
  function AddPayload(f: Form): (p: Payload)
    ensures p.title == f.title && p.category == f.category && p.excerpt == f.excerpt
    ensures p.content == f.content && p.published == f.published
    ensures p.imageUrl.Some? && p.imageUrl.value != "" && p.readTime != ""
    ensures f.imageUrl.Some? && f.imageUrl.value != "" ==> p.imageUrl == f.imageUrl
    ensures !(f.imageUrl.Some? && f.imageUrl.value != "") ==> p.imageUrl == Some(DefaultImage)
    ensures p.readTime == Js.Or(f.readTime, DefaultReadTime)
  {
    Payload(f.title, f.category, f.excerpt, f.content,
            Some(Js.OrMissing(f.imageUrl, DefaultImage)), Js.Or(f.readTime, DefaultReadTime), f.published)
  }

  /**
   * `handleAdd`: the create call it makes, if any, and the state after it. Only a
   * successful create resets the form and closes the modal.
   */
  function HandleAdd(st: PageState, createOk: bool): (r: (Option<Payload>, PageState))
    ensures r.0.Some? <==> CanAdd(st.form)
    ensures r.0.Some? ==> r.0.value == AddPayload(st.form)
    ensures CanAdd(st.form) && createOk ==>
              r.1 == st.(form := EmptyForm, imagePreview := None, showAddModal := false)
    ensures !(CanAdd(st.form) && createOk) ==> r.1 == st
  {
    if st.form.title != "" && st.form.category != "" then
      (Some(AddPayload(st.form)),
       if createOk then st.(form := EmptyForm, imagePreview := None, showAddModal := false) else st)
    else (None, st)
  }

  /** `blog.published !== false`: a missing flag counts as published. */
  function PublishedForEdit(published: Option<bool>): bool {
    published != Some(false)
  }

  /** The form `handleEdit` fills in. */
  function EditForm(b: Post): (f: Form)
    ensures f.title == b.title && f.category == b.category && f.imageUrl == b.imageUrl
    ensures f.excerpt == b.excerpt.GetOr("") && f.content == b.content.GetOr("")
    ensures f.readTime != "" && (b.readTime.Some? && b.readTime.value != "" ==> f.readTime == b.readTime.value)
    ensures f.published <==> !(b.published == Some(false))
  {
    Form(b.title, b.category, Js.OrMissing(b.excerpt, ""), Js.OrMissing(b.content, ""),
         b.imageUrl, Js.OrMissing(b.readTime, DefaultReadTime), PublishedForEdit(b.published))
  }

  function HandleEdit(st: PageState, b: Post): (r: PageState)
    ensures r == st.(editingId := Some(b.id), form := EditForm(b), imagePreview := b.imageUrl)
  {
    PageState(Some(b.id), st.showAddModal, EditForm(b), b.imageUrl)
  }

  /** `handleSave`: the update call sends the form as it stands; success leaves editing mode. */
  function HandleSave(st: PageState, id: string, updateOk: bool): (r: ((string, Payload), PageState))
    ensures r.0.0 == id
    ensures r.0.1.title == st.form.title && r.0.1.imageUrl == st.form.imageUrl && r.0.1.readTime == st.form.readTime
    ensures r.0.1.category == st.form.category && r.0.1.excerpt == st.form.excerpt
    ensures r.0.1.content == st.form.content && r.0.1.published == st.form.published
    ensures updateOk ==> r.1 == st.(editingId := None, imagePreview := None)
    ensures !updateOk ==> r.1 == st
  {
    var f := st.form;
    ((id, Payload(f.title, f.category, f.excerpt, f.content, f.imageUrl, f.readTime, f.published)),
     if updateOk then st.(editingId := None, imagePreview := None) else st)
  }

  /** Opening a post and saving it untouched sends back its title, category and image, and a reading time. */
  lemma EditThenSave(st: PageState, b: Post)
    ensures var sent := HandleSave(HandleEdit(st, b), b.id, true).0;
            sent.0 == b.id && sent.1.title == b.title && sent.1.category == b.category
            && sent.1.imageUrl == b.imageUrl && sent.1.readTime != ""
            && (b.published.Some? ==> sent.1.published == b.published.value)
  {
  }

  /** JavaScript truthiness of the flag; a missing flag is falsy. */
  predicate Truthy(published: Option<bool>) {
    published == Some(true)
  }

  /** `{ ...blog, published: !blog.published }`. */
  function Toggled(b: Post): (r: Post)
    ensures r.(published := b.published) == b
    ensures r.published == Some(!Truthy(b.published))
  {
    b.(published := Some(!Truthy(b.published)))
  }

  /** Toggling twice restores a post whose flag was present. */
  lemma ToggleTwice(b: Post)
    requires b.published.Some?
    ensures Toggled(Toggled(b)) == b
  {
    if b.published.value {
      assert Toggled(b).published == Some(false);
    } else {
      assert Toggled(b).published == Some(true);
    }
  }

  /** `!blog.published`. */
  predicate DraftShown(b: Post) {
    !Truthy(b.published)
  }

  /** The badge and the edit form disagree about a post without a flag: it shows Draft yet edits as published. */
  lemma MissingFlagDisagrees(b: Post)
    ensures DraftShown(b) <==> b.published != Some(true)
    ensures b.published.None? ==> DraftShown(b) && EditForm(b).published
    ensures b.published.Some? ==> (DraftShown(b) <==> !EditForm(b).published)
  {
    if b.published.Some? && b.published.value {
      assert !DraftShown(b) && EditForm(b).published;
    }
  }

  /** `handleDelete(id)` after the confirmation prompt: the delete call made, if any. */
  function HandleDelete(id: string, confirmed: bool): (call: Option<string>)
    ensures call.Some? <==> confirmed
    ensures call.Some? ==> call.value == id
  {
    if confirmed then Some(id) else None
  }
}
