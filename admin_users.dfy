/**
 * The super-admin's user list (dashboard/admin/users/page.tsx): role
 * badges, the Active/Disabled status and the Enable/Disable toggle.
 */
module AdminUsers {

  datatype UserRole = SUPER_ADMIN | ORGANIZER | AUTHOR | COMMITTEE | PARTICIPANT

  datatype Kind = Neutral | Info | Success | Warning | Danger

  datatype RoleBadge = RoleBadge(caption: string, kind: Kind)

  /** `roleMeta(role)`: PARTICIPANT takes the default branch. */
  function RoleMeta(role: UserRole): (b: RoleBadge)
    ensures role == PARTICIPANT ==> b == RoleBadge("Participant", Success)
  {
    match role
    case SUPER_ADMIN => RoleBadge("Super Admin", Danger)
    case ORGANIZER => RoleBadge("Organizer", Info)
    case COMMITTEE => RoleBadge("Committee", Warning)
    case AUTHOR => RoleBadge("Author", Neutral)
    case _ => RoleBadge("Participant", Success)
  }

  /** Each role has its own badge colour. */
  lemma RoleKindsDistinct(r: UserRole, s: UserRole)
    ensures RoleMeta(r).kind == RoleMeta(s).kind <==> r == s
  {
  }

  datatype AdminUser = AdminUser(id: string, name: string, email: string, role: UserRole, active: bool)

  /** `prev.map(u => u.id === id ? { ...u, active: !u.active } : u)`. */
  function Toggled(users: seq<AdminUser>, id: string): (r: seq<AdminUser>)
    ensures |r| == |users|
    ensures forall i | 0 <= i < |users| ::
      r[i] == if users[i].id == id then users[i].(active := !users[i].active) else users[i]
  {
    seq(|users|, i requires 0 <= i < |users| =>
      if users[i].id == id then users[i].(active := !users[i].active) else users[i])
  }

  /** Only the `active` flag of the matching users changes, and it is negated. */
  lemma ToggledFlipsOnlyActive(users: seq<AdminUser>, id: string)
    ensures forall i | 0 <= i < |users| ::
      var u := Toggled(users, id)[i];
      && u.id == users[i].id && u.name == users[i].name && u.email == users[i].email && u.role == users[i].role
      && (u.active <==> (if users[i].id == id then !users[i].active else users[i].active))
  {
  }

  /** Toggling the same id twice restores the list. */
  lemma ToggleTwice(users: seq<AdminUser>, id: string)
    ensures Toggled(Toggled(users, id), id) == users
  {
  }

  /** Toggling an id no user has changes nothing. */
  lemma ToggleAbsent(users: seq<AdminUser>, id: string)
    requires forall i | 0 <= i < |users| :: users[i].id != id
    ensures Toggled(users, id) == users
  {
  }

  /** The status cell. */
  function StatusCaption(u: AdminUser): (caption: string)
    ensures caption == "Active" <==> u.active
    ensures caption in {"Active", "Disabled"}
  {
    if u.active then "Active" else "Disabled"
  }

  /** The toggle button: it offers the opposite of the current status. */
  function ToggleCaption(u: AdminUser): (caption: string)
    ensures caption == "Disable" <==> u.active
    ensures caption in {"Disable", "Enable"}
  {
    if u.active then "Disable" else "Enable"
  }

  /** After a toggle the matching user's status and button swap their captions. */
  lemma ToggleSwapsCaptions(users: seq<AdminUser>, id: string, i: int)
    requires 0 <= i < |users| && users[i].id == id
    ensures StatusCaption(Toggled(users, id)[i]) == (if StatusCaption(users[i]) == "Active" then "Disabled" else "Active")
    ensures ToggleCaption(Toggled(users, id)[i]) == (if ToggleCaption(users[i]) == "Disable" then "Enable" else "Disable")
  {
  }

  const InitialUsers := [
    AdminUser("u1", "Mouheb", "Mouheb@mail.com", ORGANIZER, true),
    AdminUser("u2", "Nedjme", "nedjme@mail.com", AUTHOR, true),
    AdminUser("u3", "Raouf", "raouf@mail.com", COMMITTEE, false),
    AdminUser("u4", "Jad", "Jad@mail.com", PARTICIPANT, true)
  ]

  /** The page's `users` state. */
  class UserList {
    var users: seq<AdminUser>

    /** The four mock users. */
    constructor ()
      ensures users == InitialUsers
    {
      users := InitialUsers;
    }

    /** `toggleUser(id)`. */
    method ToggleUser(id: string)
      modifies this
      ensures users == Toggled(old(users), id)
    {
      users := Toggled(users, id);
    }
  }
}
