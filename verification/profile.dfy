/** The profile view: per-field edit/save/cancel, the language dropdown and
    the "save profile" button. Each write goes to both the matching registry
    records and `currentUser`. */
module Profile {
  import opened Base
  import opened Storage

  datatype Field = Fullname | Email | Gender | Birthdate | Language

  /** The `UserProfile` state. */
  datatype ProfileRecord = ProfileRecord(
    fullname: string,
    email: string,
    gender: string,
    birthdate: string,
    language: string)

  datatype ProfileView = ProfileView(
    profile: ProfileRecord,
    editing: map<Field, bool>,
    temp: map<Field, string>,
    showLanguageDropdown: bool)

  /** A view state and the store after a handler that writes both. */
  datatype Edited = Edited(view: ProfileView, store: Store)

  function Get(p: ProfileRecord, f: Field): string
  {
    match f
    case Fullname => p.fullname
    case Email => p.email
    case Gender => p.gender
    case Birthdate => p.birthdate
    case Language => p.language
  }

  /** `{ ...p, [f]: value }`. */
  function With(p: ProfileRecord, f: Field, value: string): (r: ProfileRecord)
    ensures Get(r, f) == value
    ensures forall g :: g != f ==> Get(r, g) == Get(p, g)
  {
    match f
    case Fullname => p.(fullname := value)
    case Email => p.(email := value)
    case Gender => p.(gender := value)
    case Birthdate => p.(birthdate := value)
    case Language => p.(language := value)
  }

  /** A profile field of a stored user record; `None` when the record lacks it. */
  function UserField(u: User, f: Field): Option<string>
  {
    match f
    case Fullname => Some(u.fullname)
    case Email => Some(u.email)
    case Gender => u.gender
    case Birthdate => u.birthdate
    case Language => u.language
  }

  /** `{ ...user, [f]: value }` on a stored record. */
  function SetUserField(u: User, f: Field, value: string): (r: User)
    ensures UserField(r, f) == Some(value)
    ensures forall g :: g != f ==> UserField(r, g) == UserField(u, g)
    ensures r.password == u.password && r.isAdmin == u.isAdmin && r.joinDate == u.joinDate
  {
    match f
    case Fullname => u.(fullname := value)
    case Email => u.(email := value)
    case Gender => u.(gender := Some(value))
    case Birthdate => u.(birthdate := Some(value))
    case Language => u.(language := Some(value))
  }

  /** `{ ...user, ...profile }`: every profile field overwritten. */
  function Overwrite(u: User, p: ProfileRecord): (r: User)
    ensures forall f :: UserField(r, f) == Some(Get(p, f))
    ensures r.password == u.password && r.isAdmin == u.isAdmin && r.joinDate == u.joinDate
  {
    u.(fullname := p.fullname, email := p.email, gender := Some(p.gender),
       birthdate := Some(p.birthdate), language := Some(p.language))
  }

  /** `users.map(user => user.email === email ? update(user) : user)`. */
  function UpdateWhere(users: seq<User>, email: string, update: User -> User): (r: seq<User>)
    ensures |r| == |users|
    ensures forall i :: 0 <= i < |users| && users[i].email == email ==> r[i] == update(users[i])
    ensures forall i :: 0 <= i < |users| && users[i].email != email ==> r[i] == users[i]
  {
    seq(|users|, i requires 0 <= i < |users| => if users[i].email == email then update(users[i]) else users[i])
  }

  /** The record written to `currentUser`: exactly the five profile fields. */
  function ToUser(p: ProfileRecord): (u: User)
    ensures forall f :: UserField(u, f) == Some(Get(p, f))
    ensures u.password.None? && !u.isAdmin && u.joinDate.None?
  {
    User(p.fullname, p.email, Some(p.gender), Some(p.birthdate), None, Some(p.language), false, None)
  }

  function OptionalText(s: Option<string>): string
  {
    match s
    case None => ""
    case Some(t) => t
  }

  /** The profile the mount effect reads from `currentUser`, with `|| ''`
      defaults and `|| 'English'` for the language. */
  function FromUser(u: User): ProfileRecord
  {
    ProfileRecord(u.fullname, u.email, OptionalText(u.gender), OptionalText(u.birthdate),
                  OrElse(OptionalText(u.language), "English"))
  }

  function Initial(): ProfileView
  {
    ProfileView(ProfileRecord("", "", "", "", "English"), map[], map[], false)
  }

  /** The mount effect. */
  function Load(store: Store): (r: Guarded<ProfileView>)
    ensures r.Redirected? <==> store.currentUser.None?
    ensures r.Shown? ==> r.value.profile == FromUser(store.currentUser.value)
  {
    match store.currentUser
    case None => Redirected
    case Some(u) => Shown(Initial().(profile := FromUser(u)))
  }

  /** `handleEdit`. */
  function Edit(v: ProfileView, f: Field): (r: ProfileView)
    ensures r.editing == v.editing[f := true]
    ensures r.temp == v.temp[f := Get(v.profile, f)]
    ensures r.profile == v.profile && r.showLanguageDropdown == v.showLanguageDropdown
  {
    v.(editing := v.editing[f := true], temp := v.temp[f := Get(v.profile, f)])
  }

  /** `handleChange`: typing into a field's box. */
  function Change(v: ProfileView, f: Field, value: string): (r: ProfileView)
    ensures f in r.temp && r.temp[f] == value
    ensures forall g :: g != f ==> (g in r.temp <==> g in v.temp) && (g in v.temp ==> r.temp[g] == v.temp[g])
    ensures r.profile == v.profile && r.editing == v.editing && r.showLanguageDropdown == v.showLanguageDropdown
  {
    v.(temp := v.temp[f := value])
  }

  /** `handleSave`. Records are matched on the profile's email before the edit. */
  function Save(v: ProfileView, f: Field, store: Store): (r: Edited)
    ensures r.view.editing == v.editing[f := false]
    ensures r.view.temp == v.temp && r.view.showLanguageDropdown == v.showLanguageDropdown
    ensures f !in v.temp ==> r.view.profile == v.profile && r.store == store
    ensures f in v.temp ==>
      && Get(r.view.profile, f) == v.temp[f]
      && (forall g :: g != f ==> Get(r.view.profile, g) == Get(v.profile, g))
      && r.store == store.(users := r.store.users, currentUser := Some(ToUser(r.view.profile)))
      && |r.store.users| == |store.users|
      && (forall i :: 0 <= i < |store.users| && store.users[i].email == v.profile.email ==>
            r.store.users[i] == SetUserField(store.users[i], f, v.temp[f]))
      && (forall i :: 0 <= i < |store.users| && store.users[i].email != v.profile.email ==>
            r.store.users[i] == store.users[i])
  {
    var editing := v.editing[f := false];
    if f in v.temp then
      var value := v.temp[f];
      var updated := With(v.profile, f, value);
      var users := UpdateWhere(store.users, v.profile.email, u => SetUserField(u, f, value));
      Edited(v.(profile := updated, editing := editing),
             store.(users := users, currentUser := Some(ToUser(updated))))
    else
      Edited(v.(editing := editing), store)
  }

  /** The birthdate input's own `onChange`: it sets the shown birthdate to
      the picked date, then calls `handleSave('birthdate')` on the state from
      before the pick. Both updates land in one render and the save's comes
      last, so the picked date is shown only when no edit box value exists,
      and it is never what gets written: storage receives exactly what a
      plain save of the birthdate writes (nothing, without an edit box
      value). */
  function PickBirthdate(v: ProfileView, date: string, store: Store): (r: Edited)
    ensures r.store == Save(v, Birthdate, store).store
    ensures r.view.editing == v.editing[Birthdate := false] && r.view.temp == v.temp
    ensures Birthdate !in v.temp ==> r.view.profile == v.profile.(birthdate := date) && r.store == store
    ensures Birthdate in v.temp ==> r.view.profile.birthdate == v.temp[Birthdate]
  {
    var saved := Save(v, Birthdate, store);
    if Birthdate in v.temp then saved
    else Edited(saved.view.(profile := v.profile.(birthdate := date)), saved.store)
  }

  /** `handleCancel`: the store is not touched. */
  function Cancel(v: ProfileView, f: Field): (r: ProfileView)
    ensures r.profile == v.profile
    ensures r.editing == v.editing[f := false]
    ensures r.temp == v.temp[f := Get(v.profile, f)]
  {
    v.(editing := v.editing[f := false], temp := v.temp[f := Get(v.profile, f)])
  }

  /** `handleLanguageChange`. */
  function ChangeLanguage(v: ProfileView, language: string, store: Store): (r: Edited)
    ensures r.view.profile == With(v.profile, Language, language)
    ensures !r.view.showLanguageDropdown
    ensures r.view.editing == v.editing && r.view.temp == v.temp
    ensures r.store == store.(users := r.store.users, currentUser := Some(ToUser(r.view.profile)))
    ensures |r.store.users| == |store.users|
    ensures forall i :: 0 <= i < |store.users| && store.users[i].email == v.profile.email ==>
      r.store.users[i] == SetUserField(store.users[i], Language, language)
    ensures forall i :: 0 <= i < |store.users| && store.users[i].email != v.profile.email ==>
      r.store.users[i] == store.users[i]
  {
    var updated := v.profile.(language := language);
    var users := UpdateWhere(store.users, v.profile.email, (u: User) => u.(language := Some(language)));
    Edited(v.(profile := updated, showLanguageDropdown := false),
           store.(users := users, currentUser := Some(ToUser(updated))))
  }

  /** `handleSaveProfile`. */
  function SaveProfile(v: ProfileView, store: Store): (r: Store)
    ensures r == store.(users := r.users, currentUser := Some(ToUser(v.profile)))
    ensures |r.users| == |store.users|
    ensures forall i :: 0 <= i < |store.users| && store.users[i].email == v.profile.email ==>
      && (forall f :: UserField(r.users[i], f) == Some(Get(v.profile, f)))
      && r.users[i].password == store.users[i].password
    ensures forall i :: 0 <= i < |store.users| && store.users[i].email != v.profile.email ==>
      r.users[i] == store.users[i]
  {
    store.(users := UpdateWhere(store.users, v.profile.email, u => Overwrite(u, v.profile)),
           currentUser := Some(ToUser(v.profile)))
  }

  /* ---------------------------------------------------------------------- */

  /** Reopening the page after a write shows what was written (a language
      left empty reads back as English). */
  lemma ReloadShowsWrittenProfile(p: ProfileRecord)
    requires p.language != ""
    ensures FromUser(ToUser(p)) == p
  {
  }

  /** A field saved after an edit without typing leaves the profile as it was. */
  lemma EditThenSaveKeepsProfile(v: ProfileView, f: Field, store: Store)
    ensures Save(Edit(v, f), f, store).view.profile == v.profile
  {
    var e := Edit(v, f);
    var p := Save(e, f, store).view.profile;
    assert forall g :: Get(p, g) == Get(v.profile, g);
  }

  /** The record written to `currentUser` by any save loses the password and
      the administrator flag the signed-in record had. */
  lemma SaveDropsCredentials(v: ProfileView, f: Field, store: Store)
    requires f in v.temp
    ensures var u := Save(v, f, store).store.currentUser.value;
      u.password.None? && !u.isAdmin
  {
  }
}
