/** The sign-up form's submit handler: four checks in a fixed order, each of
    which stops the handler with its own message, then one record appended to
    the `users` registry. */
module SignUp {
  import opened Base
  import opened Storage

  datatype Form = Form(
    fullname: string,
    email: string,
    gender: string,
    birthdate: string,
    password: string,
    confirmPassword: string)

  /** A date as `getFullYear`, `getMonth` and `getDate` read it. */
  datatype CalendarDate = CalendarDate(year: int, month: int, day: int)

  const GenderError: string := "Please select a gender"
  const AgeError: string := "You must be at least 18 years old to sign up"
  const PasswordError: string := "Passwords do not match"
  const DuplicateError: string := "Email already exists"

  /** The dropdown's placeholder and the empty string are not a choice. */
  predicate GenderChosen(gender: string)
  {
    gender != "" && gender != "select"
  }

  /** Calendar order. */
  predicate OnOrBefore(a: CalendarDate, b: CalendarDate)
  {
    a.year < b.year || (a.year == b.year && (a.month < b.month || (a.month == b.month && a.day <= b.day)))
  }

  /** The `isOver18` rule, on the birthdate the form's string parses to; a
      string that is not a date (whose fields read as NaN) fails it. The rule
      accepts exactly the people whose eighteenth birthday is today or
      earlier. */
  predicate IsOver18(birth: Option<CalendarDate>, today: CalendarDate): (r: bool)
    ensures birth.None? ==> !r
    ensures birth.Some? ==>
      (r <==> OnOrBefore(CalendarDate(birth.value.year + 18, birth.value.month, birth.value.day), today))
  {
    match birth
    case None => false
    case Some(b) =>
      var age := today.year - b.year;
      var monthDiff := today.month - b.month;
      var dayDiff := today.day - b.day;
      age > 18 || (age == 18 && (monthDiff > 0 || (monthDiff == 0 && dayDiff >= 0)))
  }

  /** Turning 18 today is enough; the day before is not. */
  lemma EighteenthBirthday(b: CalendarDate)
    requires b.day > 1
    ensures IsOver18(Some(b), CalendarDate(b.year + 18, b.month, b.day))
    ensures !IsOver18(Some(b), CalendarDate(b.year + 18, b.month, b.day - 1))
  {
  }

  predicate EmailTaken(users: seq<User>, email: string)
  {
    exists i :: 0 <= i < |users| && users[i].email == email
  }

  /** The record appended on success: no language, no admin flag, no join date. */
  function NewUser(form: Form): User
  {
    User(form.fullname, form.email, Some(form.gender), Some(form.birthdate), Some(form.password),
         None, false, None)
  }

  /** What the handler leaves behind: the store, and the error it shows (none
      on success, when it shows the success overlay and moves to sign-in). */
  datatype Outcome = Outcome(store: Store, error: Option<string>)

  function Submit(form: Form, birth: Option<CalendarDate>, today: CalendarDate, store: Store): (r: Outcome)
    ensures r.error.None? <==>
      && GenderChosen(form.gender)
      && IsOver18(birth, today)
      && form.password == form.confirmPassword
      && !EmailTaken(store.users, form.email)
    ensures r.error.Some? ==> r.store == store
    ensures !GenderChosen(form.gender) ==> r.error == Some(GenderError)
    ensures GenderChosen(form.gender) && !IsOver18(birth, today) ==> r.error == Some(AgeError)
    ensures GenderChosen(form.gender) && IsOver18(birth, today) && form.password != form.confirmPassword ==>
      r.error == Some(PasswordError)
    ensures (GenderChosen(form.gender) && IsOver18(birth, today) && form.password == form.confirmPassword
             && EmailTaken(store.users, form.email)) ==> r.error == Some(DuplicateError)
    ensures r.error.None? ==> r.store == store.(users := store.users + [NewUser(form)])
  {
    if !GenderChosen(form.gender) then Outcome(store, Some(GenderError))
    else if !IsOver18(birth, today) then Outcome(store, Some(AgeError))
    else if form.password != form.confirmPassword then Outcome(store, Some(PasswordError))
    else if EmailTaken(store.users, form.email) then Outcome(store, Some(DuplicateError))
    else Outcome(store.(users := store.users + [NewUser(form)]), None)
  }

  /** No two registry records share an email. */
  ghost predicate DistinctEmails(users: seq<User>)
  {
    forall i, j :: 0 <= i < j < |users| ==> users[i].email != users[j].email
  }

  /** Sign-up keeps registry emails pairwise distinct. */
  lemma SubmitKeepsEmailsDistinct(form: Form, birth: Option<CalendarDate>, today: CalendarDate, store: Store)
    requires DistinctEmails(store.users)
    ensures DistinctEmails(Submit(form, birth, today, store).store.users)
  {
    var r := Submit(form, birth, today, store);
    if r.error.None? {
      var us := r.store.users;
      forall i, j | 0 <= i < j < |us| ensures us[i].email != us[j].email {
        if j == |store.users| {
          assert us[i] == store.users[i];
        } else {
          assert us[i] == store.users[i] && us[j] == store.users[j];
        }
      }
    }
  }
}
