/** The profile editor (src/pages/EditProfile.tsx): four state fields, the
    Edit / Cancel / Save handlers and the name input's change handler. */
module EditProfile {
  import opened Types
  import AuthProvider

  datatype Form = Form(name: string, originalName: string, isEditing: bool, isLoading: bool)

  /** The state on mount: the signed-in user's name, or the empty string
      without a user; not editing. */
  function InitialForm(user: Option<User>): (f: Form)
    ensures f.name == f.originalName && !f.isEditing && !f.isLoading
    ensures f.name == if user.Some? then user.value.name else ""
  {
    var name := if user.Some? then user.value.name else "";
    Form(name, name, false, false)
  }

  /** `handleEdit`: remember the current name and unlock the input. */
  function Edit(f: Form): (g: Form)
    ensures g.isEditing && g.originalName == f.name
    ensures g.name == f.name && g.isLoading == f.isLoading
  {
    f.(originalName := f.name, isEditing := true)
  }

  /** `handleCancel`: put the remembered name back and lock the input. */
  function Cancel(f: Form): (g: Form)
    ensures !g.isEditing && g.name == f.originalName
    ensures g.originalName == f.originalName && g.isLoading == f.isLoading
  {
    f.(name := f.originalName, isEditing := false)
  }

  /** The input's `onChange`. The input is `disabled` unless editing, so
      typing reaches the state only while editing. */
  function Type(f: Form, text: string): (g: Form)
    ensures g.name != f.name ==> f.isEditing
    ensures f.isEditing ==> g.name == text
    ensures g.originalName == f.originalName && g.isEditing == f.isEditing && g.isLoading == f.isLoading
  {
    if f.isEditing then f.(name := text) else f
  }

  /** A run of keystrokes, each replacing the input's text. */
  function TypeAll(f: Form, texts: seq<string>): (g: Form)
    ensures g.originalName == f.originalName && g.isEditing == f.isEditing && g.isLoading == f.isLoading
    ensures !f.isEditing ==> g.name == f.name
    ensures f.isEditing && |texts| > 0 ==> g.name == texts[|texts| - 1]
    ensures texts == [] ==> g == f
    decreases |texts|
  {
    if texts == [] then f else TypeAll(Type(f, texts[0]), texts[1..])
  }

  /** Edit, any typing, then Cancel gives back the name from before Edit. */
  lemma EditTypeCancelRestores(f: Form, texts: seq<string>)
    ensures Cancel(TypeAll(Edit(f), texts)).name == f.name
    ensures !Cancel(TypeAll(Edit(f), texts)).isEditing
  {
  }

  /** The user record `handleSave` hands to `updateUser`: the seven declared
      fields of the user it started from, with the name replaced. */
  function Renamed(u: User, name: string): (r: User)
    ensures r.name == name && r.otherFields == map[]
    ensures SameDeclaredFields(r, u.(name := name))
  {
    User(u.id, u.email, name, u.isAdmin, u.apiCalls, u.createdAt, u.lastActive, map[])
  }

  datatype Saved = Saved(form: Form, auth: AuthProvider.AuthState)

  /** `handleSave`. It awaits the store's `updateName`; on success, if a user
      was signed in when the save began, that record renamed replaces
      whatever the backend returned, and editing ends. On failure the form
      stays in editing mode with the typed name. Loading ends either way. */
  function SaveStep(f: Form, auth: AuthProvider.AuthState, reply: Outcome<User>): (r: Saved)
    ensures !r.form.isLoading
    ensures r.form.name == f.name && r.form.originalName == f.originalName
    ensures reply.Success? ==> !r.form.isEditing
    ensures reply.Success? ==> r.auth.error == None
    ensures reply.Success? ==>
              r.auth.user == Some(if auth.user.Some? then Renamed(auth.user.value, f.name) else reply.data)
    ensures reply.Failure? ==> r.form.isEditing == f.isEditing
    ensures reply.Failure? ==> r.auth == AuthProvider.UpdateNameStep(auth, f.name, reply).state
    ensures r.auth.isLoading == false
  {
    var before := auth.user;
    var h := AuthProvider.UpdateNameStep(auth, f.name, reply);
    if h.rethrown.None? then
      var after := if before.Some? then h.state.(user := Some(Renamed(before.value, f.name))) else h.state;
      Saved(f.(isEditing := false, isLoading := false), after)
    else
      Saved(f.(isLoading := false), h.state)
  }

  /** A failed save, then Cancel, still restores the name from before Edit. */
  lemma FailedSaveThenCancelRestores(f: Form, texts: seq<string>, auth: AuthProvider.AuthState, e: Thrown)
    ensures
      var typed := TypeAll(Edit(f), texts);
      var saved := SaveStep(typed, auth, Failure(e));
      saved.form.isEditing && Cancel(saved.form).name == f.name
  {
  }

  class ProfileEditor {
    var name: string
    var originalName: string
    var isEditing: bool
    var isLoading: bool

    function FormState(): Form
      reads this
    {
      Form(name, originalName, isEditing, isLoading)
    }

    constructor (user: Option<User>)
      ensures FormState() == InitialForm(user)
    {
      name := if user.Some? then user.value.name else "";
      isEditing := false;
      originalName := name;
      isLoading := false;
    }

    method HandleEdit()
      modifies this
      ensures FormState() == Edit(old(FormState()))
    {
      originalName := name;
      isEditing := true;
    }

    method HandleCancel()
      modifies this
      ensures FormState() == Cancel(old(FormState()))
    {
      name := originalName;
      isEditing := false;
    }

    method HandleChange(text: string)
      modifies this
      ensures FormState() == Type(old(FormState()), text)
    {
      if isEditing {
        name := text;
      }
    }

    method HandleSave(auth: AuthProvider.AuthStore, reply: Outcome<User>)
      modifies this, auth
      ensures Saved(FormState(), auth.State()) == SaveStep(old(FormState()), old(auth.State()), reply)
    {
      isLoading := true;
      var user := auth.user;
      var rethrown := auth.UpdateName(name, reply);
      if rethrown.None? {
        if user.Some? {
          auth.UpdateUser(Some(Renamed(user.value, name)));
        }
        isEditing := false;
      }
      isLoading := false;
    }
  }
}
