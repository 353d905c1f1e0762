/** The admin's page (`AdminDashboard`): the list of non-admin users, a user
    promoted to pharmacist in place, and a user promoted to admin by email and
    dropped from the list. */
module AdminDashboard {
  import opened Common
  import Seqs

  datatype User = User(id: string, email: string, fullName: string, role: string)

  /** The "Make Pharmacist" button is rendered for a user exactly when they are
      not already a pharmacist. */
  predicate ShowMakePharmacist(u: User): (shown: bool)
    ensures u.role == "pharmacist" ==> !shown
    ensures u.role == "user" || u.role == "admin" || u.role == "" ==> shown
  {
    u.role != "pharmacist"
  }

  /** `users.map(user => user.id === userId ? { ...user, role: "pharmacist" } : user)`. */
  function MakePharmacist(users: seq<User>, userId: string): (r: seq<User>)
    ensures |r| == |users|
    ensures forall i :: 0 <= i < |r| ==> r[i].id == users[i].id && r[i].email == users[i].email && r[i].fullName == users[i].fullName
    ensures forall i :: 0 <= i < |r| ==> r[i].role == if users[i].id == userId then "pharmacist" else users[i].role
  {
    seq(|users|, i requires 0 <= i < |users| => if users[i].id == userId then users[i].(role := "pharmacist") else users[i])
  }

  /** `handleMakePharmacist(userId)`: the role is written, then the list is
      updated. When `updateDoc` fails, the handler stops before either. */
  function HandleMakePharmacist(users: seq<User>, userId: string, updateOk: bool): (r: (seq<User>, seq<UserWrite>))
    ensures r.1 == if updateOk then [SetRole(userId, "pharmacist")] else []
    ensures r.0 == if updateOk then MakePharmacist(users, userId) else users
  {
    if updateOk then (MakePharmacist(users, userId), [SetRole(userId, "pharmacist")]) else (users, [])
  }

  /** Promoting twice is promoting once, and afterwards no entry with that id
      offers the button, while every other entry's button is as before. */
  lemma MakePharmacistSettles(users: seq<User>, userId: string)
    ensures MakePharmacist(MakePharmacist(users, userId), userId) == MakePharmacist(users, userId)
    ensures forall i :: 0 <= i < |users| ==>
              ShowMakePharmacist(MakePharmacist(users, userId)[i]) == (users[i].id != userId && ShowMakePharmacist(users[i]))
  {
    var once := MakePharmacist(users, userId);
    var twice := MakePharmacist(once, userId);
    forall i | 0 <= i < |users| ensures twice[i] == once[i] {
    }
  }

  /** The list and the email input the admin page holds. */
  datatype AdminPage = AdminPage(users: seq<User>, newAdminEmail: string)

  /** The new page, the writes made and the alert raised by `handleAddAdmin`. */
  datatype AddAdminResult = AddAdminResult(page: AdminPage, writes: seq<UserWrite>, alert: Option<string>)

  /** `handleAddAdmin`, where `found` is the id of the first user whose email
      equals the input, if any, and `updateOk` says whether `updateDoc`
      succeeded. On a hit the role is written, the input cleared and that user
      dropped from the list; on a miss only an alert is raised. */
  function HandleAddAdmin(p: AdminPage, found: Option<string>, updateOk: bool): (r: AddAdminResult)
    ensures found.None? ==> r == AddAdminResult(p, [], Some("User not found. Please check the email address."))
    ensures found.Some? && !updateOk ==> r == AddAdminResult(p, [], None)
    ensures found.Some? && updateOk ==>
              r.writes == [SetRole(found.value, "admin")] &&
              r.alert == Some(p.newAdminEmail + " has been made an admin.") &&
              r.page.newAdminEmail == "" &&
              (forall i :: 0 <= i < |r.page.users| ==> r.page.users[i].id != found.value && r.page.users[i] in p.users) &&
              (forall i :: 0 <= i < |p.users| && p.users[i].id != found.value ==> p.users[i] in r.page.users)
  {
    match found
    case None => AddAdminResult(p, [], Some("User not found. Please check the email address."))
    case Some(id) =>
      if updateOk then
        AddAdminResult(AdminPage(Seqs.Without(p.users, (u: User) => u.id == id), ""),
                       [SetRole(id, "admin")], Some(p.newAdminEmail + " has been made an admin."))
      else AddAdminResult(p, [], None)
  }

  /** The promoted admin's removal keeps the other users in their order. */
  lemma AddAdminKeepsOrder(a: seq<User>, b: seq<User>, email: string, id: string)
    ensures HandleAddAdmin(AdminPage(a + b, email), Some(id), true).page.users ==
            HandleAddAdmin(AdminPage(a, email), Some(id), true).page.users +
            HandleAddAdmin(AdminPage(b, email), Some(id), true).page.users
  {
    Seqs.WithoutAppend(a, b, (u: User) => u.id == id);
  }
}
