/**
 * The tour packages page. It works directly on the store's `packages` array: adding
 * pushes a record, saving assigns five fields of the first record with the id being
 * edited, and deleting splices that record out after the user confirms.
 */
module Packages {
  import opened Wrappers
  import Js
  import Db

  const DefaultCategory := "Luxury"
  const DefaultImage := "https://images.unsplash.com/photo-1516426122078-c23e76319801"

  /** The edit form: the five fields a user can change. */
  datatype Form = Form(name: string, duration: string, price: int, category: string, image: string)

  const EmptyForm := Form("", "", 0, "", "")

  /** `editForm.name && editForm.duration && editForm.price`: a price of 0 is falsy. */
  predicate CanAdd(f: Form) {
    f.name != "" && f.duration != "" && f.price != 0
  }

  /** The record `handleAdd` pushes for the form `f` and the fresh id. */
  function NewRecord(f: Form, id: string): (p: Db.Package)
    ensures p.id == id && p.name == f.name && p.duration == f.duration && p.price == f.price
    ensures p.bookings == 0 && p.revenue == 0 && p.status == "active"
    ensures p.category != "" && (p.category == f.category <==> f.category != "")
    ensures p.image != "" && (p.image == f.image <==> f.image != "")
  {
    Db.Package(id, f.name, f.duration, f.price,
               if f.category != "" then f.category else DefaultCategory,
               0, 0, "active",
               if f.image != "" then f.image else DefaultImage)
  }

  /** The form `handleEdit` fills in from a record. */
  function FormOf(p: Db.Package): Form {
    Form(p.name, p.duration, p.price, p.category, p.image)
  }

  /** The fields saving never touches. */
  function Bookkeeping(p: Db.Package): (string, int, int, string) {
    (p.id, p.bookings, p.revenue, p.status)
  }

  /** A record with the five form fields assigned. */
  function Apply(p: Db.Package, f: Form): (q: Db.Package)
    ensures FormOf(q) == f && Bookkeeping(q) == Bookkeeping(p)
  {
    p.(name := f.name, duration := f.duration, price := f.price, category := f.category, image := f.image)
  }

  /** Saving the form a record was loaded into gives back the record. */
  lemma ApplyOwnForm(p: Db.Package)
    ensures Apply(p, FormOf(p)) == p
  {
  }

  /** The array after `handleSave(id)` with form `f`. */
  function SaveForm(rows: seq<Db.Package>, id: string, f: Form): (r: seq<Db.Package>)
    ensures |r| == |rows|
    ensures forall j :: 0 <= j < |r| && j != Db.FirstIndex(Db.PackageIds(rows), id) ==> r[j] == rows[j]
    ensures id in Db.PackageIds(rows) ==>
              var i := Db.FirstIndex(Db.PackageIds(rows), id);
              FormOf(r[i]) == f && Bookkeeping(r[i]) == Bookkeeping(rows[i])
  {
    var i := Db.FirstIndex(Db.PackageIds(rows), id);
    if i < 0 then rows else rows[i := Apply(rows[i], f)]
  }

  /** The array after a confirmed `handleDelete(id)`. */
  function DeleteFirst(rows: seq<Db.Package>, id: string): (r: seq<Db.Package>)
    ensures id !in Db.PackageIds(rows) ==> r == rows
    ensures id in Db.PackageIds(rows) ==>
              var i := Db.FirstIndex(Db.PackageIds(rows), id);
              |r| == |rows| - 1 && rows[i].id == id
              && (forall j :: 0 <= j < i ==> r[j] == rows[j])
              && (forall j :: i <= j < |r| ==> r[j] == rows[j + 1])
  {
    var i := Db.FirstIndex(Db.PackageIds(rows), id);
    if i < 0 then rows else rows[..i] + rows[i + 1..]
  }

  lemma {:induction false} PackageIdsAppend(rows: seq<Db.Package>, p: Db.Package)
    ensures Db.PackageIds(rows + [p]) == Db.PackageIds(rows) + [p.id]
  {
  }

  /** Deleting a record just added under a fresh id gives back the array as it was. */
  lemma {:induction false} AddThenDeleteRestores(rows: seq<Db.Package>, f: Form, newId: string)
    requires newId !in Db.PackageIds(rows)
    ensures DeleteFirst(rows + [NewRecord(f, newId)], newId) == rows
  {
    var p := NewRecord(f, newId);
    PackageIdsAppend(rows, p);
    var keys := Db.PackageIds(rows + [p]);
    assert keys[|rows|] == newId;
    var i := Db.FirstIndex(keys, newId);
    assert i == |rows|;
    assert (rows + [p])[..|rows|] == rows;
  }

  /** Saving the unchanged form of the first record with an id leaves the array as it was. */
  lemma {:induction false} SaveUnchangedForm(rows: seq<Db.Package>, id: string)
    requires id in Db.PackageIds(rows)
    ensures SaveForm(rows, id, FormOf(rows[Db.FirstIndex(Db.PackageIds(rows), id)])) == rows
  {
    var i := Db.FirstIndex(Db.PackageIds(rows), id);
    ApplyOwnForm(rows[i]);
    assert rows[i := rows[i]] == rows;
  }

  class PackagesPage {
    /** `const { packages } = db`: the store's own array, not a copy. */
    const packages: Db.Table<Db.Package>
    var editingId: Option<string>
    var showAddModal: bool
    var editForm: Form
    var imagePreview: Option<string>

    constructor (db: Db.Database)
      ensures packages == db.packages
      ensures editingId.None? && !showAddModal && editForm == EmptyForm && imagePreview.None?
    {
      packages := db.packages;
      editingId := None;
      showAddModal := false;
      editForm := EmptyForm;
      imagePreview := None;
    }

    /**
     * `handleAdd`, given the clock reading `Date.now()` whose decimal form is the new id:
     * pushes the new record, resets the form and closes the modal when the guard holds;
     * otherwise changes nothing.
     */
    method HandleAdd(now: int)
      modifies packages, this`editForm, this`imagePreview, this`showAddModal
      ensures CanAdd(old(editForm)) ==>
                packages.rows == old(packages.rows) + [NewRecord(old(editForm), Js.IntToString(now))]
                && editForm == EmptyForm && imagePreview.None? && !showAddModal
      ensures !CanAdd(old(editForm)) ==>
                packages.rows == old(packages.rows) && editForm == old(editForm)
                && imagePreview == old(imagePreview) && showAddModal == old(showAddModal)
    {
      if editForm.name != "" && editForm.duration != "" && editForm.price != 0 {
        packages.Push(NewRecord(editForm, Js.IntToString(now)));
        editForm := EmptyForm;
        imagePreview := None;
        showAddModal := false;
      }
    }

    /** `handleEdit(pkg)`: enters editing mode for the record with its five fields in the form. */
    method HandleEdit(pkg: Db.Package)
      modifies this`editingId, this`editForm, this`imagePreview
      ensures editingId == Some(pkg.id) && editForm == FormOf(pkg) && imagePreview == Some(pkg.image)
      ensures showAddModal == old(showAddModal)
    {
      editingId := Some(pkg.id);
      editForm := FormOf(pkg);
      imagePreview := Some(pkg.image);
    }

    /** `handleSave(id)`: assigns the form to the first record with the id, then always leaves editing mode. */
    method HandleSave(id: string)
      modifies packages, this`editingId, this`imagePreview
      ensures packages.rows == SaveForm(old(packages.rows), id, editForm)
      ensures editingId.None? && imagePreview.None?
      ensures editForm == old(editForm) && showAddModal == old(showAddModal)
    {
      var i := Db.FindFirst(Db.PackageIds(packages.rows), id);
      if i >= 0 {
        var pkg := packages.rows[i];
        packages.Put(i, Apply(pkg, editForm));
      }
      editingId := None;
      imagePreview := None;
    }

    /** `handleDelete(id)` with the user's answer to the confirmation prompt. */
    method HandleDelete(id: string, confirmed: bool)
      modifies packages
      ensures packages.rows == if confirmed then DeleteFirst(old(packages.rows), id) else old(packages.rows)
    {
      if confirmed {
        var index := Db.FindFirst(Db.PackageIds(packages.rows), id);
        if index > -1 {
          packages.RemoveAt(index);
        }
      }
    }
  }

  /** Opening the first record with an id for editing and saving it untouched leaves the array as it was. */
  method EditThenSave(page: PackagesPage, id: string)
    requires id in Db.PackageIds(page.packages.rows)
    modifies page, page.packages
    ensures page.packages.rows == old(page.packages.rows)
    ensures page.editingId.None? && page.imagePreview.None?
  {
    var pkg := page.packages.rows[Db.FirstIndex(Db.PackageIds(page.packages.rows), id)];
    page.HandleEdit(pkg);
    page.HandleSave(id);
    SaveUnchangedForm(old(page.packages.rows), id);
  }

  /** Adding under a fresh id and then deleting that id, confirmed, gives back the array. */
  method AddThenDelete(page: PackagesPage, now: int)
    requires CanAdd(page.editForm) && Js.IntToString(now) !in Db.PackageIds(page.packages.rows)
    modifies page, page.packages
    ensures page.packages.rows == old(page.packages.rows)
  {
    ghost var f := page.editForm;
    page.HandleAdd(now);
    page.HandleDelete(Js.IntToString(now), true);
    AddThenDeleteRestores(old(page.packages.rows), f, Js.IntToString(now));
  }
}
