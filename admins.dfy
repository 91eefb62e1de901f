/**
 * The admin users page. The list is replaced wholesale on every change (spread and
 * `map`), so the page is a function from one state to the next: adding an admin, status
 * transitions, which actions a row offers, the header counts, and avatar initials.
 */
module AdminManagement {
  import Js

  datatype Role = SuperAdmin | Admin | SubAdmin
  datatype Status = Active | Suspended | Blocked

  datatype AdminUser = AdminUser(
    id: string, name: string, email: string, role: Role, status: Status,
    createdAt: string, lastLogin: string)

  const InitialAdmins: seq<AdminUser> := [
    AdminUser("1", "Super Admin", "admin@wildwave.com", SuperAdmin, Active, "2025-01-01", "2026-03-15"),
    AdminUser("2", "John Manager", "john@wildwave.com", Admin, Active, "2025-06-15", "2026-03-14"),
    AdminUser("3", "Sarah Support", "sarah@wildwave.com", SubAdmin, Active, "2025-09-20", "2026-03-13"),
    AdminUser("4", "Mike Assistant", "mike@wildwave.com", SubAdmin, Suspended, "2025-11-10", "2026-02-28")
  ]

  /** The "add admin" form; the password is asked for but never kept. */
  datatype NewAdminForm = NewAdminForm(name: string, email: string, password: string, role: Role)

  const EmptyForm := NewAdminForm("", "", "", SubAdmin)

  datatype PageState = PageState(admins: seq<AdminUser>, showAddModal: bool, form: NewAdminForm)

  const InitialState := PageState(InitialAdmins, false, EmptyForm)

  predicate CanAdd(f: NewAdminForm) {
    f.name != "" && f.email != "" && f.password != ""
  }

  /**
   * `handleAddAdmin` at clock reading `now` (the id is its decimal form) and ISO
   * timestamp `iso` (the creation date is the part before 'T').
   */
  function AddAdmin(st: PageState, now: int, iso: string): (r: PageState)
    ensures !CanAdd(st.form) ==> r == st
    ensures CanAdd(st.form) ==>
              |r.admins| == |st.admins| + 1 && r.admins[..|st.admins|] == st.admins
              && r.form == EmptyForm && !r.showAddModal
    ensures CanAdd(st.form) ==>
              var a := r.admins[|st.admins|];
              a.name == st.form.name && a.email == st.form.email && a.role == st.form.role
              && a.status == Active && a.lastLogin == "Never"
              && a.id == Js.IntToString(now) && a.createdAt == Js.Split(iso, 'T')[0]
  {
    var f := st.form;
    if f.name != "" && f.email != "" && f.password != "" then
      var admin := AdminUser(Js.IntToString(now), f.name, f.email, f.role, Active, Js.Split(iso, 'T')[0], "Never");
      PageState(st.admins + [admin], false, EmptyForm)
    else st
  }

  /** Two forms that differ only in a (non-empty) password leave the same list. */
  lemma PasswordNotStored(st: PageState, p1: string, p2: string, now: int, iso: string)
    requires p1 != "" && p2 != ""
    ensures AddAdmin(st.(form := st.form.(password := p1)), now, iso).admins
         == AddAdmin(st.(form := st.form.(password := p2)), now, iso).admins
  {
  }

  /** `updateStatus(id, status)`: every record with the id gets the status; nothing else changes. */
  function UpdateStatus(admins: seq<AdminUser>, id: string, status: Status): (r: seq<AdminUser>)
    ensures |r| == |admins|
    ensures forall j :: 0 <= j < |r| ==> r[j].(status := admins[j].status) == admins[j]
    ensures forall j :: 0 <= j < |r| ==> r[j].status == if admins[j].id == id then status else admins[j].status
  {
    seq(|admins|, j requires 0 <= j < |admins| =>
          if admins[j].id == id then admins[j].(status := status) else admins[j])
  }

  // ---------------------------------------------------------------------------
  // Row actions
  // ---------------------------------------------------------------------------

  datatype Action = Suspend | Block | Activate

  /** The status each button sets. */
  function Target(act: Action): Status {
    match act
    case Suspend => Suspended
    case Block => Blocked
    case Activate => Active
  }

  /** The buttons a row shows, in order. */
  function Offered(a: AdminUser): seq<Action> {
    (if a.status == Active && a.role != SuperAdmin then [Suspend, Block] else [])
    + (if a.status != Active then [Activate] else [])
  }

  /** Suspend and Block go together, for active admins below super-admin; Activate appears exactly for inactive ones. */
  lemma OfferedRule(a: AdminUser)
    ensures Suspend in Offered(a) <==> a.status == Active && a.role != SuperAdmin
    ensures Block in Offered(a) <==> Suspend in Offered(a)
    ensures Activate in Offered(a) <==> a.status != Active
    ensures a.status == Active && a.role == SuperAdmin ==> Offered(a) == []
    ensures forall act :: act in Offered(a) ==> Target(act) != a.status
  {
  }

  // ---------------------------------------------------------------------------
  // Header counts and initials
  // ---------------------------------------------------------------------------

  function ActiveCount(admins: seq<AdminUser>): nat
    decreases |admins|
  {
    if |admins| == 0 then 0 else (if admins[0].status == Active then 1 else 0) + ActiveCount(admins[1..])
  }

  function InactiveCount(admins: seq<AdminUser>): nat
    decreases |admins|
  {
    if |admins| == 0 then 0 else (if admins[0].status != Active then 1 else 0) + InactiveCount(admins[1..])
  }

  /** The "Active" and "Suspended/Blocked" cards always add up to "Total Admins". */
  lemma {:induction false} CountsPartition(admins: seq<AdminUser>)
    ensures ActiveCount(admins) + InactiveCount(admins) == |admins|
    decreases |admins|
  {
    if |admins| > 0 {
      CountsPartition(admins[1..]);
    }
  }

  lemma InitialCounts()
    ensures ActiveCount(InitialAdmins) == 3 && InactiveCount(InitialAdmins) == 1
  {
    assert InitialAdmins[1..][1..][1..][1..] == [];
  }

  /** `n[0]` of one part of the name; an empty part gives undefined, which `join` writes as "". */
  function FirstChars(parts: seq<string>): seq<string> {
    seq(|parts|, i requires 0 <= i < |parts| => if parts[i] == "" then "" else [parts[i][0]])
  }

  /** `name.split(' ').map(n => n[0]).join('')`. */
  function Initials(name: string): string {
    Js.Join(FirstChars(Js.Split(name, ' ')), "")
  }

  lemma {:induction false} JoinFirstChars(words: seq<string>)
    requires forall i :: 0 <= i < |words| ==> words[i] != ""
    ensures Js.Join(FirstChars(words), "") == seq(|words|, i requires 0 <= i < |words| => words[i][0])
    decreases |words|
  {
    if |words| > 0 {
      JoinFirstChars(words[1..]);
      var fc := FirstChars(words);
      assert fc == [[words[0][0]]] + FirstChars(words[1..]);
      Js.JoinCons([words[0][0]], FirstChars(words[1..]), "");
    }
  }

  /** For words separated by single spaces, the initials are the words' first letters in order. */
  lemma InitialsOfWords(words: seq<string>)
    requires |words| >= 1
    requires forall i :: 0 <= i < |words| ==> words[i] != "" && ' ' !in words[i]
    ensures Initials(Js.Join(words, " ")) == seq(|words|, i requires 0 <= i < |words| => words[i][0])
  {
    Js.SplitJoin(words, ' ');
    JoinFirstChars(words);
  }

  /** There are never more initials than space-separated parts. */
  lemma {:induction false} InitialsBound(parts: seq<string>)
    ensures |Js.Join(FirstChars(parts), "")| <= |parts|
    decreases |parts|
  {
    if |parts| > 1 {
      InitialsBound(parts[1..]);
      assert FirstChars(parts)[1..] == FirstChars(parts[1..]);
    }
  }

  lemma InitialsExample()
    ensures Initials("Super Admin") == "SA"
  {
    InitialsOfWords(["Super", "Admin"]);
    assert Js.Join(["Super", "Admin"], " ") == "Super Admin";
  }
}
