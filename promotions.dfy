/**
 * The promotions page: the empty form, the form filled from a promotion with defaults,
 * the create-or-update choice on submit and the reset after a successful save, and Cancel.
 * Whether the API call succeeded is a parameter.
 */
module Promotions {
  import opened Wrappers
  import Js

  /** A promotion as the API returns it; optional members may be missing. */
  datatype Promotion = Promotion(
    id: int, title: string, description: Option<string>, discountText: Option<string>,
    buttonText: Option<string>, buttonLink: Option<string>, active: Option<bool>)

  /** The form, also the body of the create and update calls. `active` is copied from a promotion as is. */
  datatype PromoForm = PromoForm(
    title: string, description: string, discountText: string,
    buttonText: string, buttonLink: string, active: Option<bool>)

  const DefaultButtonText := "Book Now"
  const DefaultButtonLink := "/contact"

  const EmptyForm := PromoForm("", "", "", DefaultButtonText, DefaultButtonLink, Some(true))

  /** The form `handleEdit` fills in: text members defaulted with `||`, title and flag copied. */
  function EditForm(p: Promotion): (f: PromoForm)
    ensures f.title == p.title && f.active == p.active
    ensures f.description == p.description.GetOr("") && f.discountText == p.discountText.GetOr("")
    ensures f.buttonText != "" && f.buttonLink != ""
    ensures p.buttonText.Some? && p.buttonText.value != "" ==> f.buttonText == p.buttonText.value
    ensures p.buttonLink.Some? && p.buttonLink.value != "" ==> f.buttonLink == p.buttonLink.value
    ensures (p.buttonText.None? || p.buttonText.value == "") ==> f.buttonText == DefaultButtonText
    ensures (p.buttonLink.None? || p.buttonLink.value == "") ==> f.buttonLink == DefaultButtonLink
  {
    PromoForm(p.title, Js.OrMissing(p.description, ""), Js.OrMissing(p.discountText, ""),
              Js.OrMissing(p.buttonText, DefaultButtonText), Js.OrMissing(p.buttonLink, DefaultButtonLink),
              p.active)
  }

  /** A promotion stored with every member of a form. */
  function Stored(id: int, f: PromoForm): Promotion {
    Promotion(id, f.title, Some(f.description), Some(f.discountText), Some(f.buttonText), Some(f.buttonLink), f.active)
  }

  /**
   * Editing a promotion saved from a form gives that form back exactly when both button
   * members were non-empty; an emptied button member comes back as its default.
   */
  lemma EditStoredForm(id: int, f: PromoForm)
    ensures EditForm(Stored(id, f)) == f <==> f.buttonText != "" && f.buttonLink != ""
  {
    if f.buttonText == "" {
      assert EditForm(Stored(id, f)).buttonText != f.buttonText;
    }
  }

  /** The empty form also comes back from a promotion saved with it. */
  lemma EditStoredEmptyForm(id: int)
    ensures EditForm(Stored(id, EmptyForm)) == EmptyForm
  {
    EditStoredForm(id, EmptyForm);
  }

  /** The API call `handleSubmit` makes. */
  datatype SaveCall = Update(id: int, form: PromoForm) | Create(form: PromoForm)

  /** The text of the submit button: `{editing ? 'Update' : 'Create'} Promotion`. */
  function SubmitLabel(editing: Option<Promotion>): (s: string)
    ensures s == "Update Promotion" <==> editing.Some?
    ensures s == "Create Promotion" <==> editing.None?
  {
    var verb := if editing.Some? then "Update" else "Create";
    assert "Update Promotion"[0] == 'U' && "Create Promotion"[0] == 'C';
    verb + " Promotion"
  }

  /** The status badge: `promo.active ? 'Active' : 'Inactive'`; a missing flag is falsy. */
  function ActiveLabel(active: Option<bool>): (s: string)
    ensures s == "Active" <==> active == Some(true)
    ensures s == "Inactive" <==> active != Some(true)
  {
    if active == Some(true) then "Active" else "Inactive"
  }

  /** `handleDelete(id)` after the confirmation prompt: the delete call made, if any. */
  function HandleDelete(id: int, confirmed: bool): (call: Option<int>)
    ensures call.Some? <==> confirmed
    ensures call.Some? ==> call.value == id
  {
    if confirmed then Some(id) else None
  }

  /** The `editing` and `formData` state of the page. */
  class PromotionsPage {
    var editing: Option<Promotion>
    var formData: PromoForm

    constructor ()
      ensures editing.None? && formData == EmptyForm
    {
      editing := None;
      formData := EmptyForm;
    }

    /**
     * `handleSubmit`: updates the promotion being edited, or creates one, with the form as
     * it stands. A successful call resets the form and leaves editing; a failed one changes nothing.
     */
    method HandleSubmit(callOk: bool) returns (call: SaveCall)
      modifies this
      ensures old(editing).Some? ==> call == Update(old(editing).value.id, old(formData))
      ensures old(editing).None? ==> call == Create(old(formData))
      ensures callOk ==> editing.None? && formData == EmptyForm
      ensures !callOk ==> editing == old(editing) && formData == old(formData)
    {
      if editing.Some? {
        call := Update(editing.value.id, formData);
      } else {
        call := Create(formData);
      }
      if callOk {
        formData := EmptyForm;
        editing := None;
      }
    }

    /** `handleEdit`: remembers the promotion and fills the form from it. */
    method HandleEdit(promo: Promotion)
      modifies this
      ensures editing == Some(promo) && formData == EditForm(promo)
    {
      editing := Some(promo);
      formData := EditForm(promo);
    }

    /** The Cancel button: leaves editing and resets the form. */
    method Cancel()
      modifies this
      ensures editing.None? && formData == EmptyForm
    {
      editing := None;
      formData := EmptyForm;
    }
  }

  /** Opening a promotion and cancelling returns the page to its initial state. */
  method EditThenCancel(page: PromotionsPage, promo: Promotion)
    modifies page
    ensures page.editing.None? && page.formData == EmptyForm
  {
    page.HandleEdit(promo);
    page.Cancel();
  }

  /** Opening a promotion and saving it without changes updates that promotion with its own defaulted members. */
  method EditThenSubmit(page: PromotionsPage, promo: Promotion, callOk: bool) returns (call: SaveCall)
    modifies page
    ensures call == Update(promo.id, EditForm(promo))
    ensures callOk ==> page.editing.None? && page.formData == EmptyForm
    ensures !callOk ==> page.editing == Some(promo)
  {
    page.HandleEdit(promo);
    call := page.HandleSubmit(callOk);
  }
}
