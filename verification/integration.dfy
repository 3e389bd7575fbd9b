/** How the views meet in local storage. Each view is consistent with itself,
    but they disagree about which keys and fields carry information from one
    page to another: the handover from the history page, the conversation
    list, the join date, and the "recent" feedback. */
module Integration {
  import opened Base
  import opened Storage
  import ChatCommon
  import Chat
  import ChatAbis
  import History
  import SignUp
  import SignIn
  import Profile
  import MoodTracker
  import Feedback
  import AdminDashboard

  /* ---------------------------------------------------------------------- */
  /* The "Continue" handover                                                 */

  /** "Continue" on the history page hands the conversation over under
      `currentConversation`; the current chat page reads only
      `savedConversation`, so whatever is in storage it opens exactly what it
      would have opened without the handover: the conversation last saved on
      leaving the chat, or, with nothing saved, a fresh chat with the single
      opening prompt. The handed-over key stays in storage. */
  lemma ContinueNotResumedByChat(c: Conversation, store: Store, promptId: string, now: int)
    ensures Chat.Mount(History.Continue(c, store), promptId, now) == Chat.Mount(store, promptId, now)
    ensures store.savedConversation.None? ==>
      var v := Chat.Mount(History.Continue(c, store), promptId, now);
      && v.messages == [ChatCommon.OpeningMessage(promptId, now)]
      && v.current.None?
  {
  }

  /** The earlier chat page does resume it: the transcript is the handed-over
      conversation's, and the key is consumed. */
  lemma ContinueResumedByChatAbis(c: Conversation, store: Store, promptId: string, now: int)
    ensures var r := ChatAbis.Mount(History.Continue(c, store), promptId, now);
      && r.view.messages == c.messages
      && r.view.current == Some(c)
      && r.store == store.(currentConversation := None)
  {
  }

  /* ---------------------------------------------------------------------- */
  /* The conversation list                                                   */

  /** Leaving the current chat page saves the transcript under
      `savedConversation` only: the history page, which lists `conversations`
      by the signed-in email, lists exactly what it listed before. The saved
      record's owner is `user123` unless the conversation came with one. */
  lemma ChatNeverReachesHistory(v: ChatCommon.ChatView, store: Store, freshId: string, now: int)
    ensures History.Load(Chat.Unmount(v, store, freshId, now)) == History.Load(store)
    ensures |v.messages| > 0 && v.current.None? ==>
      Chat.Unmount(v, store, freshId, now).savedConversation.value.conversation.userId == "user123"
  {
    var after := Chat.Unmount(v, store, freshId, now);
    assert after.conversations == store.conversations && after.currentUser == store.currentUser;
  }

  /** No view writes `moodHistory`; in particular the mood captured in chat is
      kept with the saved conversation and never reaches the mood tracker. */
  lemma ChatMoodNeverReachesTracker(v: ChatCommon.ChatView, store: Store, freshId: string, now: int,
                                    prev: MoodTracker.MoodView, periodStart: int, today: int, trend: MoodTracker.Trend)
    ensures MoodTracker.Load(prev, Chat.Unmount(v, store, freshId, now), periodStart, today, trend)
         == MoodTracker.Load(prev, store, periodStart, today, trend)
  {
    var after := Chat.Unmount(v, store, freshId, now);
    assert after.moodHistory == store.moodHistory && after.currentUser == store.currentUser;
  }

  /* ---------------------------------------------------------------------- */
  /* Join dates                                                              */

  /** The handlers that write the `users` registry or `currentUser`. */
  datatype AccountAction =
    | SignUpWith(form: SignUp.Form, birth: Option<SignUp.CalendarDate>, today: SignUp.CalendarDate)
    | SignInWith(credentials: SignIn.Credentials)
    | SaveField(view: Profile.ProfileView, field: Profile.Field)
    | PickBirthdate(view: Profile.ProfileView, date: string)
    | ChangeLanguage(view: Profile.ProfileView, language: string)
    | SaveProfile(view: Profile.ProfileView)

  function Apply(a: AccountAction, store: Store): Store
  {
    match a
    case SignUpWith(form, birth, today) => SignUp.Submit(form, birth, today, store).store
    case SignInWith(c) => SignIn.SignIn(c, store).store
    case SaveField(v, f) => Profile.Save(v, f, store).store
    case PickBirthdate(v, date) => Profile.PickBirthdate(v, date, store).store
    case ChangeLanguage(v, language) => Profile.ChangeLanguage(v, language, store).store
    case SaveProfile(v) => Profile.SaveProfile(v, store)
  }

  /** The actions in order. */
  function Run(actions: seq<AccountAction>, store: Store): Store
  {
    if actions == [] then store else Run(actions[1..], Apply(actions[0], store))
  }

  predicate Undated(users: seq<User>)
  {
    forall i :: 0 <= i < |users| ==> users[i].joinDate.None?
  }

  /** Every account handler keeps a registry without join dates without them:
      sign-up appends a record with none, and the profile writes carry over
      each record's own. */
  lemma ApplyKeepsUndated(a: AccountAction, store: Store)
    requires Undated(store.users)
    ensures Undated(Apply(a, store).users)
  {
    match a
    case SignUpWith(form, birth, today) =>
      var r := SignUp.Submit(form, birth, today, store);
      if r.error.None? {
        assert r.store.users == store.users + [SignUp.NewUser(form)];
      }
    case SignInWith(c) =>
    case SaveField(v, f) =>
      var r := Profile.Save(v, f, store);
      if f in v.temp {
        forall i | 0 <= i < |r.store.users| ensures r.store.users[i].joinDate.None? {
          if store.users[i].email == v.profile.email {
            assert r.store.users[i] == Profile.SetUserField(store.users[i], f, v.temp[f]);
          }
        }
      }
    case PickBirthdate(v, date) =>
      var r := Profile.Save(v, Profile.Birthdate, store);
      if Profile.Birthdate in v.temp {
        forall i | 0 <= i < |r.store.users| ensures r.store.users[i].joinDate.None? {
          if store.users[i].email == v.profile.email {
            assert r.store.users[i] == Profile.SetUserField(store.users[i], Profile.Birthdate, v.temp[Profile.Birthdate]);
          }
        }
      }
    case ChangeLanguage(v, language) =>
      var r := Profile.ChangeLanguage(v, language, store);
      forall i | 0 <= i < |r.store.users| ensures r.store.users[i].joinDate.None? {
        if store.users[i].email == v.profile.email {
          assert r.store.users[i] == Profile.SetUserField(store.users[i], Profile.Language, language);
        }
      }
    case SaveProfile(v) =>
      var r := Profile.SaveProfile(v, store);
      forall i | 0 <= i < |r.users| ensures r.users[i].joinDate.None? {
        if store.users[i].email == v.profile.email {
          assert r.users[i] == store.users[i].(fullname := v.profile.fullname, email := v.profile.email,
            gender := Some(v.profile.gender), birthdate := Some(v.profile.birthdate),
            language := Some(v.profile.language));
        }
      }
  }

  lemma {:induction false} RunKeepsUndated(actions: seq<AccountAction>, store: Store)
    requires Undated(store.users)
    ensures Undated(Run(actions, store).users)
  {
    if actions != [] {
      ApplyKeepsUndated(actions[0], store);
      RunKeepsUndated(actions[1..], Apply(actions[0], store));
    }
  }

  /** Starting from a fresh browser, whatever sign-ups, sign-ins and profile
      edits happen, the dashboard's "new users" count is 0 for every period,
      because no record ever gets the `joinDate` it filters on. */
  lemma NoUserIsEverNew(actions: seq<AccountAction>, feedbacks: seq<FeedbackEntry>,
                        chats: seq<Conversation>, periodStart: int)
    ensures var users := Run(actions, EmptyStore()).users;
      AdminDashboard.GetStats(AdminDashboard.Dashboard(feedbacks, users, chats), periodStart).newUsers == 0
  {
    RunKeepsUndated(actions, EmptyStore());
    AdminDashboard.UndatedUsersAreNeverNew(Run(actions, EmptyStore()).users, periodStart);
  }

  /* ---------------------------------------------------------------------- */
  /* Registering, then signing in                                            */

  /** A successful sign-up followed by signing in with the same email and
      password signs in as exactly the record just written (for any pair but
      the administrator's, which never reaches the registry). */
  lemma SignUpThenSignIn(form: SignUp.Form, birth: Option<SignUp.CalendarDate>, today: SignUp.CalendarDate, store: Store)
    requires SignUp.Submit(form, birth, today, store).error.None?
    requires !(form.email == SignIn.AdminEmail && form.password == SignIn.AdminPassword)
    ensures var registered := SignUp.Submit(form, birth, today, store).store;
      var r := SignIn.SignIn(SignIn.Credentials(form.email, form.password), registered);
      && r.outcome == SignIn.SignedIn
      && r.store.currentUser == Some(SignUp.NewUser(form))
  {
    var users := SignUp.Submit(form, birth, today, store).store.users;
    var n := |store.users|;
    assert users == store.users + [SignUp.NewUser(form)];
    assert SignIn.IsFirstWithEmail(users, form.email, n) by {
      forall j | 0 <= j < n ensures users[j].email != form.email {
        assert users[j] == store.users[j];
      }
    }
  }

  /** With any other password the new account is refused. */
  lemma SignUpThenWrongPassword(form: SignUp.Form, birth: Option<SignUp.CalendarDate>, today: SignUp.CalendarDate,
                                store: Store, password: string)
    requires SignUp.Submit(form, birth, today, store).error.None?
    requires password != form.password
    requires !(form.email == SignIn.AdminEmail && password == SignIn.AdminPassword)
    ensures var registered := SignUp.Submit(form, birth, today, store).store;
      SignIn.SignIn(SignIn.Credentials(form.email, password), registered).outcome.Rejected?
  {
    var users := SignUp.Submit(form, birth, today, store).store.users;
    var n := |store.users|;
    assert users == store.users + [SignUp.NewUser(form)];
    assert forall j :: 0 <= j < n ==> users[j] == store.users[j];
    assert forall i :: SignIn.IsFirstWithEmail(users, form.email, i) ==> i == n;
  }

  /* ---------------------------------------------------------------------- */
  /* Feedback and the dashboard                                              */

  /** Feedback is appended at the end, while the dashboard's "Recent Feedback"
      shows the first five stored entries: once five exist, a new submission
      leaves that list as it was. */
  lemma NewFeedbackNotRecent(f: Feedback.FeedbackForm, store: Store, id: string, now: int)
    requires |store.feedbacks| >= AdminDashboard.RecentCount
    ensures var after := Feedback.Submit(f, store, id, now).store;
      AdminDashboard.Recent(AdminDashboard.Dashboard(after.feedbacks, after.users, after.conversations))
        == AdminDashboard.Recent(AdminDashboard.Dashboard(store.feedbacks, store.users, store.conversations))
  {
    var after := Feedback.Submit(f, store, id, now).store;
    if f.comment != "" {
      assert after.feedbacks[..AdminDashboard.RecentCount] == store.feedbacks[..AdminDashboard.RecentCount] by {
        assert after.feedbacks[..|store.feedbacks|] == store.feedbacks;
      }
    }
  }

  /** The form's rule "star k (from 1) is filled when k <= rating" and the
      dashboard's "star i (from 0) is filled when i < rating" draw the same row
      for every integer rating. */
  lemma StarRowsAgree(rating: int)
    ensures AdminDashboard.Stars(rating) == Feedback.Stars(rating)
  {
    var a := AdminDashboard.Stars(rating);
    var b := Feedback.Stars(rating);
    forall i | 0 <= i < 5 ensures a[i] == b[i] {
      assert a[i] == AdminDashboard.StarFilled(i, rating);
      assert b[i] == Feedback.StarFilled(i + 1, rating);
    }
  }
}
