/**
 * The administrator's settings page (components/AdminSettings.tsx): creating users,
 * sectors and roles, switching users and sectors on and off, and the sector picker of
 * the new-user form; plus the login screen's list of the users who may sign in
 * (components/Login.tsx).
 */
module Admin {
  import opened Types
  import opened SeqUtil

  /** The role a new user gets when the form leaves it empty. */
  const DefaultRole: string := "Gestor"

  /** The new-user form, a `Partial<User>`: `None` means the key is absent. */
  datatype UserDraft = UserDraft(
    name: Option<string>,
    email: Option<string>,
    role: Option<string>,
    sectors: Option<seq<string>>,
    active: Option<bool>)

  /** The draft the form starts from and returns to: active, no sectors, the default role. */
  const FreshDraft: UserDraft := UserDraft(None, None, Some(DefaultRole), Some([]), Some(true))

  /** A string key is truthy when present and non-empty. */
  predicate Truthy(s: Option<string>) {
    s.Some? && s.value != ""
  }

  /**
   * The user `handleAddUser` builds, or `None` when the name or the e-mail is missing or
   * empty. An empty role falls back to the default; only a missing sector list does.
   */
  function NewUser(d: UserDraft, id: string): (r: Option<User>)
    ensures r.None? <==> !Truthy(d.name) || !Truthy(d.email)
    ensures r.Some? ==>
              r.value.id == id && r.value.name == d.name.value && r.value.email == d.email.value &&
              r.value.active &&
              r.value.role == (if Truthy(d.role) then d.role.value else DefaultRole) &&
              r.value.sectors == d.sectors.GetOr([])
    ensures r.Some? ==> r.value.role != ""
  {
    if !Truthy(d.name) || !Truthy(d.email) then None
    else
      Some(User(id, d.name.value, d.email.value,
                if Truthy(d.role) then d.role.value else DefaultRole,
                d.sectors.GetOr([]), true))
  }

  /** `toggleUserStatus`: flips `active` on the users with the id, nothing else. */
  function ToggledUsers(users: seq<User>, id: string): (r: seq<User>)
    ensures |r| == |users|
    ensures forall i :: 0 <= i < |users| && users[i].id != id ==> r[i] == users[i]
    ensures forall i :: 0 <= i < |users| && users[i].id == id ==>
              r[i] == users[i].(active := !users[i].active)
  {
    seq(|users|, i requires 0 <= i < |users| =>
          if users[i].id == id then users[i].(active := !users[i].active) else users[i])
  }

  /** `toggleSectorStatus`: flips `active` on the sectors with the id, nothing else. */
  function ToggledSectors(sectors: seq<Sector>, id: string): (r: seq<Sector>)
    ensures |r| == |sectors|
    ensures forall i :: 0 <= i < |sectors| && sectors[i].id != id ==> r[i] == sectors[i]
    ensures forall i :: 0 <= i < |sectors| && sectors[i].id == id ==>
              r[i] == sectors[i].(active := !sectors[i].active)
  {
    seq(|sectors|, i requires 0 <= i < |sectors| =>
          if sectors[i].id == id then sectors[i].(active := !sectors[i].active) else sectors[i])
  }

  lemma ToggleUsersTwice(users: seq<User>, id: string)
    ensures ToggledUsers(ToggledUsers(users, id), id) == users
  {
    var r := ToggledUsers(ToggledUsers(users, id), id);
    forall i | 0 <= i < |users| ensures r[i] == users[i] {
      if users[i].id == id {
        assert r[i].active == users[i].active;
      }
    }
  }

  lemma ToggleSectorsTwice(sectors: seq<Sector>, id: string)
    ensures ToggledSectors(ToggledSectors(sectors, id), id) == sectors
  {
    var r := ToggledSectors(ToggledSectors(sectors, id), id);
    forall i | 0 <= i < |sectors| ensures r[i] == sectors[i] {
      if sectors[i].id == id {
        assert r[i].active == sectors[i].active;
      }
    }
  }

  /** The login screen lists the active users, in order. */
  function LoginCandidates(users: seq<User>): (r: seq<User>)
    ensures Subseq(r, users)
    ensures forall u :: u in r <==> u in users && u.active
    ensures forall u :: multiset(r)[u] == if u.active then multiset(users)[u] else 0
  {
    var r := Filter((u: User) => u.active, users);
    forall u ensures u in r <==> u in users && u.active {
      FilterMembership((u: User) => u.active, users, u);
    }
    r
  }

  /** Switching a user off removes them from the login screen, switching them on adds them. */
  lemma ToggleFlipsLogin(users: seq<User>, i: int)
    requires 0 <= i < |users|
    ensures var t := ToggledUsers(users, users[i].id);
            t[i] in LoginCandidates(t) <==> !users[i].active
  {
  }

  /** A newly added user can sign in at once. */
  lemma NewUserCanSignIn(users: seq<User>, d: UserDraft, id: string)
    requires NewUser(d, id).Some?
    ensures NewUser(d, id).value in LoginCandidates(users + [NewUser(d, id).value])
  {
  }

  /** The names the new-user form offers as sectors: those of the active sectors. */
  function PickableSectors(sectors: seq<Sector>): (r: seq<string>)
    ensures |r| <= |sectors|
    ensures forall name :: name in r <==> exists s :: s in sectors && s.active && s.name == name
  {
    if sectors == [] then []
    else
      var rest := PickableSectors(sectors[1..]);
      assert forall s :: s in sectors <==> s == sectors[0] || s in sectors[1..];
      if sectors[0].active then [sectors[0].name] + rest else rest
  }

  /** The filter that drops one name. */
  function Except(name: string): string -> bool {
    x => x != name
  }

  /** Clicking a sector in the picker: remove every copy of the name, or append it. */
  function ToggledMembership(current: seq<string>, name: string): (r: seq<string>)
    ensures name in r <==> name !in current
    ensures forall x :: x != name ==> (x in r <==> x in current)
    ensures name !in current ==> r == current + [name]
    ensures name in current ==> Subseq(r, current)
  {
    if name in current then
      var r := Filter(Except(name), current);
      forall x ensures x in r <==> x in current && x != name {
        FilterMembership(Except(name), current, x);
      }
      r
    else current + [name]
  }

  /** Clicking the same sector twice gives the original list back when it was not picked. */
  lemma ToggleMembershipTwice(current: seq<string>, name: string)
    requires name !in current
    ensures ToggledMembership(ToggledMembership(current, name), name) == current
  {
    var once := current + [name];
    assert name in once;
    FilterAppend(Except(name), current, name);
    FilterAll(Except(name), current);
  }

  /** Picking keeps a list in which no name occurs twice free of repeats. */
  lemma ToggleKeepsDistinct(current: seq<string>, name: string)
    requires forall x :: multiset(current)[x] <= 1
    ensures var r := ToggledMembership(current, name);
            forall x :: multiset(r)[x] <= 1
  {
    if name !in current {
      assert multiset(current)[name] == 0;
    }
  }

  /** The settings page's state and the lists it edits, which the application owns. */
  class AdminPanel {
    var users: seq<User>
    var sectors: seq<Sector>
    var roles: seq<Role>
    var showModal: bool
    var newUser: UserDraft
    var newSector: string
    var newRole: string

    constructor (users: seq<User>, sectors: seq<Sector>, roles: seq<Role>)
      ensures this.users == users && this.sectors == sectors && this.roles == roles
      ensures !showModal && newUser == FreshDraft && newSector == "" && newRole == ""
    {
      this.users, this.sectors, this.roles := users, sectors, roles;
      showModal, newUser, newSector, newRole := false, FreshDraft, "", "";
    }

    /** "Novo usuário" opens the form; the cross closes it, keeping the draft. */
    method SetModal(open: bool)
      modifies this
      ensures showModal == open
      ensures users == old(users) && sectors == old(sectors) && roles == old(roles)
      ensures newUser == old(newUser) && newSector == old(newSector) && newRole == old(newRole)
    {
      showModal := open;
    }

    /**
     * `handleAddUser`: with a name and an e-mail, appends the new user, closes the form and
     * resets the draft; otherwise changes nothing. `id` stands for the random identifier.
     */
    method AddUser(id: string)
      modifies this
      ensures NewUser(old(newUser), id).None? ==>
                users == old(users) && newUser == old(newUser) && showModal == old(showModal)
      ensures NewUser(old(newUser), id).Some? ==>
                users == old(users) + [NewUser(old(newUser), id).value] &&
                newUser == FreshDraft && !showModal
      ensures sectors == old(sectors) && roles == old(roles)
      ensures newSector == old(newSector) && newRole == old(newRole)
    {
      var u := NewUser(newUser, id);
      if u.Some? {
        users := users + [u.value];
        showModal := false;
        newUser := FreshDraft;
      }
    }

    /** `handleAddSector`: an empty name is ignored; otherwise one active sector is appended. */
    method AddSector(id: string)
      modifies this
      ensures old(newSector) == "" ==> sectors == old(sectors)
      ensures old(newSector) != "" ==> sectors == old(sectors) + [Sector(id, old(newSector), true)]
      ensures newSector == ""
      ensures users == old(users) && roles == old(roles)
      ensures newUser == old(newUser) && newRole == old(newRole) && showModal == old(showModal)
    {
      if newSector != "" {
        sectors := sectors + [Sector(id, newSector, true)];
        newSector := "";
      }
    }

    /** `handleAddRole`: an empty name is ignored; otherwise one role without permissions is appended. */
    method AddRole(id: string)
      modifies this
      ensures old(newRole) == "" ==> roles == old(roles)
      ensures old(newRole) != "" ==> roles == old(roles) + [Role(id, old(newRole), [])]
      ensures newRole == ""
      ensures users == old(users) && sectors == old(sectors)
      ensures newUser == old(newUser) && newSector == old(newSector) && showModal == old(showModal)
    {
      if newRole != "" {
        roles := roles + [Role(id, newRole, [])];
        newRole := "";
      }
    }

    method ToggleUserStatus(id: string)
      modifies this
      ensures users == ToggledUsers(old(users), id)
      ensures sectors == old(sectors) && roles == old(roles)
      ensures newUser == old(newUser) && newSector == old(newSector) && newRole == old(newRole)
      ensures showModal == old(showModal)
    {
      users := ToggledUsers(users, id);
    }

    method ToggleSectorStatus(id: string)
      modifies this
      ensures sectors == ToggledSectors(old(sectors), id)
      ensures users == old(users) && roles == old(roles)
      ensures newUser == old(newUser) && newSector == old(newSector) && newRole == old(newRole)
      ensures showModal == old(showModal)
    {
      sectors := ToggledSectors(sectors, id);
    }

    /** A click on an active sector's button in the form's picker. */
    method ToggleDraftSector(name: string)
      requires name in PickableSectors(sectors)
      modifies this
      ensures newUser == old(newUser).(sectors := Some(ToggledMembership(old(newUser).sectors.GetOr([]), name)))
      ensures users == old(users) && sectors == old(sectors) && roles == old(roles)
      ensures newSector == old(newSector) && newRole == old(newRole) && showModal == old(showModal)
    {
      var current := newUser.sectors.GetOr([]);
      newUser := newUser.(sectors := Some(ToggledMembership(current, name)));
    }
  }
}
