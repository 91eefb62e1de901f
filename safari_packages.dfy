/**
 * The safari packages page: the add guard and form reset, the edit form filled from a
 * package with defaults, the itinerary day count, the image panel rule, and the
 * `syncing` flag around the destination image sync.
 */
module SafariPackages {
  import opened Wrappers
  import Js

  /** A package as the API returns it; optional members may be missing. */
  datatype SafariPackage = SafariPackage(
    id: string, name: string, duration: string, price: int,
    tag: Option<string>, kind: Option<string>, imageUrl: Option<string>,
    description: Option<string>, itinerary: Option<string>,
    includes: Option<string>, excludes: Option<string>, published: Option<bool>)

  /** The edit form, also the body of create and update calls. `kind` is the `type` member. */
  datatype Form = Form(
    name: string, duration: string, price: int, tag: string, kind: string,
    imageUrl: Option<string>, description: string, itinerary: string,
    includes: string, excludes: string, published: bool)

  const EmptyForm := Form("", "", 0, "", "", Some(""), "", "", "", "", true)

  datatype PageState = PageState(editingId: Option<string>, showAddModal: bool, form: Form)

  predicate CanAdd(f: Form) {
    f.name != "" && f.duration != "" && f.price != 0
  }

  /** `handleAdd`: the create call (the form itself) if the guard holds; success resets the form and closes the modal. */
  function HandleAdd(st: PageState, createOk: bool): (r: (Option<Form>, PageState))
    ensures r.0.Some? <==> CanAdd(st.form)
    ensures r.0.Some? ==> r.0.value == st.form
    ensures CanAdd(st.form) && createOk ==> r.1 == st.(form := EmptyForm, showAddModal := false)
    ensures !(CanAdd(st.form) && createOk) ==> r.1 == st
  {
    if st.form.name != "" && st.form.duration != "" && st.form.price != 0 then
      (Some(st.form), if createOk then st.(form := EmptyForm, showAddModal := false) else st)
    else (None, st)
  }

  /** The form `handleEdit` fills in. */
  function EditForm(p: SafariPackage): (f: Form)
    ensures f.name == p.name && f.duration == p.duration && f.price == p.price && f.imageUrl == p.imageUrl
    ensures f.tag == p.tag.GetOr("") && f.kind == p.kind.GetOr("") && f.description == p.description.GetOr("")
    ensures f.itinerary == p.itinerary.GetOr("") && f.includes == p.includes.GetOr("")
    ensures f.excludes == p.excludes.GetOr("")
    ensures f.published <==> p.published != Some(false)
  {
    Form(p.name, p.duration, p.price, Js.OrMissing(p.tag, ""), Js.OrMissing(p.kind, ""), p.imageUrl,
         Js.OrMissing(p.description, ""), Js.OrMissing(p.itinerary, ""),
         Js.OrMissing(p.includes, ""), Js.OrMissing(p.excludes, ""), p.published != Some(false))
  }

  /** `pkg.itinerary && pkg.itinerary.split('|').length`: no count for a missing or empty itinerary. */
  function DayCount(itinerary: Option<string>): Option<nat> {
    if itinerary.Some? && itinerary.value != "" then Some(|Js.Split(itinerary.value, '|')|) else None
  }

  /** The day count is one more than the number of '|' separators, and is shown exactly for a non-empty itinerary. */
  lemma DayCountSeparators(itinerary: Option<string>)
    ensures DayCount(itinerary).Some? <==> itinerary.Some? && itinerary.value != ""
    ensures DayCount(itinerary).Some? ==> DayCount(itinerary).value == Js.Count(itinerary.value, '|') + 1
  {
    if itinerary.Some? {
      Js.SplitLength(itinerary.value, '|');
    }
  }

  /** An itinerary of days written with `join('|')` counts exactly those days. */
  lemma DayCountOfDays(days: seq<string>)
    requires |days| >= 1 && days[0] != ""
    requires forall i :: 0 <= i < |days| ==> '|' !in days[i]
    ensures Js.Join(days, "|") != "" && DayCount(Some(Js.Join(days, "|"))) == Some(|days|)
  {
    Js.SplitJoin(days, '|');
    if |days| > 1 {
      assert Js.Join(days, "|") == days[0] + "|" + Js.Join(days[1..], "|");
    }
  }

  /** `!editingId || editingId !== pkg.id`. An empty editing id is falsy. */
  predicate ImagePanelShown(editingId: Option<string>, pkgId: string) {
    editingId.None? || editingId.value == "" || editingId.value != pkgId
  }

  /** The panel is hidden exactly for the package being edited, and never when nothing is edited. */
  lemma ImagePanelRule(editingId: Option<string>, pkgId: string)
    ensures !ImagePanelShown(editingId, pkgId) <==> editingId == Some(pkgId) && pkgId != ""
    ensures editingId.None? ==> ImagePanelShown(editingId, pkgId)
  {
  }

  /** The totals `syncDestinationImagesFromPackages` reports. */
  datatype SyncResult = SyncResult(sourceCount: int, updatedCount: int, unmatchedCount: int)

  const SyncDone := "Sync complete."
  const SyncFailed := "Failed to sync destination images. Please try again."

  function SyncReport(r: SyncResult): string {
    "\nPackages checked: " + Js.IntToString(r.sourceCount)
    + "\nDestinations updated: " + Js.IntToString(r.updatedCount)
    + "\nNo matching destination name: " + Js.IntToString(r.unmatchedCount)
  }

  /** The alert shown after the sync. */
  function SyncMessage(result: Option<SyncResult>): string {
    match result
    case Some(r) => SyncDone + SyncReport(r)
    case None => SyncFailed
  }

  /** The `syncing` flag of the page. */
  class SyncState {
    var syncing: bool

    constructor ()
      ensures !syncing
    {
      syncing := false;
    }

    /**
     * `handleSyncDestinationImages` given the sync's outcome (None when it failed): the
     * flag the call runs under, the alert text, and the flag cleared in any case.
     */
    method HandleSync(result: Option<SyncResult>) returns (during: bool, message: string)
      modifies this
      ensures during && !syncing
      ensures message == SyncMessage(result)
    {
      syncing := true;
      during := syncing;
      message := SyncMessage(result);
      syncing := false;
    }
  }

  /** The success message starts with "Sync complete." and the failure message does not. */
  lemma SyncMessageKinds(result: Option<SyncResult>)
    ensures result.Some? <==> SyncDone <= SyncMessage(result)
  {
    if result.None? {
      assert SyncMessage(result) == SyncFailed;
      assert SyncFailed == "Failed to sync destination images." + " Please try again.";
      assert SyncFailed[0] == 'F';
    } else {
      var m := SyncMessage(result);
      assert m[..|SyncDone|] == SyncDone;
    }
  }
}
