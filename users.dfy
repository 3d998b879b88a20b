/** The user-management page (`src/app/configuracoes/usuarios/page.tsx`): the list of back-office
    users, edited by id, extended by appending and shrunk by id, each new list written to the
    page state and to the `"backadmin_users"` store entry at once. */
module Users {
  import opened Types
  import Seqs
  import Auth

  /** The form of the user modal; `password` is empty when editing until a new one is typed. */
  datatype UserForm = UserForm(id: Option<string>, fullName: string, email: string, password: string, role: UserRole)

  /** The empty form a closed or "new user" modal holds. */
  const EmptyForm := UserForm(None, "", "", "", VISUALIZADOR)

  /** The page is only shown to a current user holding MANAGE_USERS. */
  function CanManageUsers(user: Option<AuthUser>, table: RolePermissionTable): (r: bool)
    ensures r <==> user.Some? && MANAGE_USERS in table(user.value.role)
  {
    user.Some? && Auth.HasPermission(user, table, MANAGE_USERS)
  }

  /** `openModal(user)`: the form for an existing user, with the password left empty. */
  function FormFor(u: AuthUser): (f: UserForm)
    ensures f.id == Some(u.id) && f.password == ""
    ensures f.fullName == u.fullName && f.email == u.email && f.role == u.role
  {
    UserForm(Some(u.id), u.fullName, u.email, "", u.role)
  }

  /** The edit of one record: name, e-mail and role from the form; the password only when one
      was typed; id, active flag and creation time kept. */
  function Edited(u: AuthUser, f: UserForm): (r: AuthUser)
    ensures r.fullName == f.fullName && r.email == f.email && r.role == f.role
    ensures f.password == "" ==> r.password == u.password
    ensures f.password != "" ==> r.password == f.password
    ensures r.id == u.id && r.active == u.active && r.createdAt == u.createdAt
  {
    u.(fullName := f.fullName, email := f.email, role := f.role,
       password := if f.password != "" then f.password else u.password)
  }

  /** The edit branch of `handleSubmit`: every record whose id is the edited user's id is
      edited; the others, the length and the order are kept. */
  function EditUsers(users: seq<AuthUser>, editingId: string, f: UserForm): (r: seq<AuthUser>)
    ensures |r| == |users|
    ensures forall i :: 0 <= i < |users| && users[i].id != editingId ==> r[i] == users[i]
    ensures forall i :: 0 <= i < |users| && users[i].id == editingId ==> r[i] == Edited(users[i], f)
  {
    if |users| == 0 then []
    else [if users[0].id == editingId then Edited(users[0], f) else users[0]] + EditUsers(users[1..], editingId, f)
  }

  /** Editing keeps every record's id, so the set of ids and their order do not change. */
  lemma EditKeepsIds(users: seq<AuthUser>, editingId: string, f: UserForm, i: int)
    requires 0 <= i < |users|
    ensures EditUsers(users, editingId, f)[i].id == users[i].id
  {
  }

  /** Editing an id that no record has changes nothing. */
  lemma EditAbsentId(users: seq<AuthUser>, editingId: string, f: UserForm)
    requires forall u :: u in users ==> u.id != editingId
    ensures EditUsers(users, editingId, f) == users
  {
    assert forall i :: 0 <= i < |users| ==> users[i] in users;
  }

  /** Submitting the same edit twice gives the same list as submitting it once. */
  lemma EditIdempotent(users: seq<AuthUser>, editingId: string, f: UserForm)
    ensures EditUsers(EditUsers(users, editingId, f), editingId, f) == EditUsers(users, editingId, f)
  {
  }

  /** The record `handleSubmit` creates: the form's fields, active, with the given id and
      creation time (`user_${Date.now()}` and the current ISO time, passed in). */
  function NewUser(f: UserForm, newId: string, now: string): (u: AuthUser)
    ensures u.id == newId && u.createdAt == now && u.active
    ensures u.fullName == f.fullName && u.email == f.email && u.password == f.password && u.role == f.role
  {
    AuthUser(newId, f.fullName, f.email, f.password, f.role, true, now)
  }

  /** The create branch of `handleSubmit`: exactly one record appended, the others unchanged. */
  function CreateUser(users: seq<AuthUser>, f: UserForm, newId: string, now: string): (r: seq<AuthUser>)
    ensures |r| == |users| + 1
    ensures r[..|users|] == users
    ensures r[|users|] == NewUser(f, newId, now)
  {
    users + [NewUser(f, newId, now)]
  }

  /** The delete of `handleDelete`: every record with that id removed, each other record kept as
      often as it occurs (its order is `DeleteKeepsOrder`). */
  function DeleteUser(users: seq<AuthUser>, userId: string): (r: seq<AuthUser>)
    ensures forall u :: u in r <==> u in users && u.id != userId
    ensures forall u :: multiset(r)[u] == if u.id != userId then multiset(users)[u] else 0
  {
    Seqs.FilterCounts((u: AuthUser) => u.id != userId, users);
    Seqs.Filter((u: AuthUser) => u.id != userId, users)
  }

  lemma DeleteKeepsOrder(users: seq<AuthUser>, userId: string)
    ensures Seqs.SubsequenceOf(DeleteUser(users, userId), users)
  {
    Seqs.FilterIsSubsequence((u: AuthUser) => u.id != userId, users);
  }

  /** Deleting an id no record has changes nothing. */
  lemma DeleteAbsentId(users: seq<AuthUser>, userId: string)
    requires forall u :: u in users ==> u.id != userId
    ensures DeleteUser(users, userId) == users
  {
    Seqs.FilterKeepsAll((u: AuthUser) => u.id != userId, users);
  }

  /** Creating a user with a fresh id and then deleting that id gives the list back. */
  lemma {:induction false} DeleteUndoesCreate(users: seq<AuthUser>, f: UserForm, newId: string, now: string)
    requires forall u :: u in users ==> u.id != newId
    ensures DeleteUser(CreateUser(users, f, newId, now), newId) == users
  {
    var created := NewUser(f, newId, now);
    Seqs.FilterAppend((u: AuthUser) => u.id != newId, users, [created]);
    assert DeleteUser(users + [created], newId) == DeleteUser(users, newId) + DeleteUser([created], newId);
    DeleteAbsentId(users, newId);
    assert DeleteUser([created], newId) == [];
  }

  /** The `"backadmin_users"` store entry: absent, unreadable, or a saved list. */
  datatype StoredUsers = Missing | Unreadable | Saved(list: seq<AuthUser>)

  /** The page state; `user` and `table` come from the authentication context. */
  class UsersPage {
    const user: Option<AuthUser>
    const table: RolePermissionTable
    var users: seq<AuthUser>
    var stored: StoredUsers
    var isModalOpen: bool
    var editingUser: Option<AuthUser>
    var showPassword: bool
    var formData: UserForm

    /** Once loaded, the store entry exists, and when it is readable the page shows it. */
    predicate Valid()
      reads this
    {
      stored != Missing && (stored.Saved? ==> users == stored.list)
    }

    /** Mounting and loading: a readable entry is shown; an unreadable one is replaced on screen
        by the built-in list but left in the store; a missing one is filled with the built-in list. */
    constructor (user: Option<AuthUser>, table: RolePermissionTable, saved: StoredUsers, builtIn: seq<AuthUser>)
      ensures Valid()
      ensures this.user == user && this.table == table
      ensures saved.Saved? ==> users == saved.list && stored == saved
      ensures saved.Unreadable? ==> users == builtIn && stored == Unreadable
      ensures saved.Missing? ==> users == builtIn && stored == Saved(builtIn)
      ensures !isModalOpen && editingUser.None? && !showPassword && formData == EmptyForm
    {
      this.user := user;
      this.table := table;
      isModalOpen := false;
      editingUser := None;
      showPassword := false;
      formData := EmptyForm;
      match saved
      case Saved(list) =>
        users := list;
        stored := saved;
      case Unreadable =>
        users := builtIn;
        stored := Unreadable;
      case Missing =>
        users := builtIn;
        stored := Saved(builtIn);
    }

    /** `saveUsers`: the page state and the store entry both become the new list. */
    method SaveUsers(newUsers: seq<AuthUser>)
      modifies this`users, this`stored
      ensures users == newUsers && stored == Saved(newUsers)
      ensures Valid()
    {
      users := newUsers;
      stored := Saved(newUsers);
    }

    method OpenModal(u: Option<AuthUser>)
      requires CanManageUsers(user, table)
      modifies this`editingUser, this`formData, this`showPassword, this`isModalOpen
      ensures editingUser == u
      ensures formData == (if u.Some? then FormFor(u.value) else EmptyForm)
      ensures !showPassword && isModalOpen
    {
      editingUser := u;
      formData := if u.Some? then FormFor(u.value) else EmptyForm;
      showPassword := false;
      isModalOpen := true;
    }

    /** `closeModal`: the form goes back to empty fields and the VISUALIZADOR role. */
    method CloseModal()
      modifies this`isModalOpen, this`editingUser, this`formData
      ensures !isModalOpen && editingUser.None? && formData == EmptyForm
    {
      isModalOpen := false;
      editingUser := None;
      formData := EmptyForm;
    }

    method SetFormData(f: UserForm)
      modifies this`formData
      ensures formData == f
    {
      formData := f;
    }

    /** `handleSubmit`: edit the user being edited, or append a new one, save, close. */
    method HandleSubmit(newId: string, now: string)
      requires CanManageUsers(user, table) && Valid()
      modifies this`users, this`stored, this`isModalOpen, this`editingUser, this`formData
      ensures Valid()
      ensures old(editingUser).Some? ==> users == EditUsers(old(users), old(editingUser).value.id, old(formData))
      ensures old(editingUser).None? ==> users == CreateUser(old(users), old(formData), newId, now)
      ensures stored == Saved(users)
      ensures !isModalOpen && editingUser.None? && formData == EmptyForm
    {
      if editingUser.Some? {
        SaveUsers(EditUsers(users, editingUser.value.id, formData));
      } else {
        SaveUsers(CreateUser(users, formData, newId, now));
      }
      CloseModal();
    }

    /** `handleDelete`, given the answer to the confirmation dialog: the current user's own id is
        refused; otherwise a confirmed delete removes the id and saves. */
    method HandleDelete(userId: string, confirmed: bool)
      requires CanManageUsers(user, table) && Valid()
      modifies this`users, this`stored
      ensures Valid()
      ensures userId == user.value.id || !confirmed ==> users == old(users) && stored == old(stored)
      ensures userId != user.value.id && confirmed ==> users == DeleteUser(old(users), userId) && stored == Saved(users)
    {
      if userId == user.value.id {
        return;
      }
      if confirmed {
        SaveUsers(DeleteUser(users, userId));
      }
    }
  }
}
