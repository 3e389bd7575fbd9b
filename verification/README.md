# SAMI web front end, modelled in Dafny

SAMI is a mental-wellness chat application. Its front end is a set of React
views that share one store: the browser's local storage, under the keys
`users`, `currentUser`, `conversations`, `savedConversation`,
`currentConversation`, `feedbacks` and `moodHistory`. This project models the
logic inside the views' event handlers and mount effects. Each handler
becomes a pure function from the view state and the store (a `Store`
record with one field per key) to the new view state and store. The project
proves what each handler does, and how the views disagree with one another.

The model covers:

- **Chat, both versions.** The current chat view (`Chat`) and the earlier one
  (`ChatAbis`): the opening prompt, reading the first reply as a mood rating
  from 1 to 10 with a canned answer, the backend reply or the fixed apology,
  and restoring, saving and resetting a conversation. JavaScript's
  `String.prototype.trim` is modelled exactly and `Number(s)` up to the
  rounding to a double: its values are exact reals (`JsText`).
- **Accounts.** Sign-up's four ordered checks and the registry append.
  Sign-in's hard-coded administrator pair and its first-match lookup by
  email. The profile page's field edits and their writes to the registry and
  to `currentUser`.
- **History.** Per-user listing newest first, delete, clear-all, the
  "continue" handover, and grouping by date label (`GroupByDate`, a loop
  proved equal to a direct definition).
- **Mood tracker.** The period filter, the mean, the bar colours against the
  legend, the seven-bar window and the insight text.
- **Feedback.** The append on submit and the star rows.
- **Admin dashboard.** The administrator guard and the period statistics.
- **How the views fit together** (`Integration`):
  - "Continue" on the history page is resumed by the earlier chat view but
    ignored by the current one.
  - The current chat view never writes `conversations`, so it never reaches
    the history page.
  - No view writes `joinDate`, so the dashboard never counts a new user.
  - No view writes `moodHistory`.
  - "Recent Feedback" shows the oldest five entries.
  - The two star rules draw the same row.

Dates and timestamps are integers (milliseconds). Mean values are exact
reals. Fresh ids (`crypto.randomUUID()`) and the clock are parameters. The
chat backend is an outcome parameter: `Replied(response)` or `Failed`.
Redirecting to the sign-in page is the `Redirected` outcome of a guarded
view.

Files, one module each: `base.dfy`, `jstext.dfy`, `storage.dfy`,
`chat_common.dfy`, `chat.dfy`, `chat_abis.dfy`, `signup.dfy`, `signin.dfy`,
`profile.dfy`, `history.dfy`, `mood_tracker.dfy`, `feedback.dfy`,
`admin_dashboard.dfy`, `integration.dfy`.

## Model

| member | source | states |
|---|---|---|
| JsText.Trim | se/updated/project/src/components/Chat.tsx:146 | the trimmed text is the input with its leading and trailing whitespace removed, neither of its ends is whitespace, and only whitespace was dropped |
| JsText.BlankIffAllSpace | se/updated/project/src/components/Chat.tsx:146 | an input counts as blank exactly when every character is JavaScript whitespace |
| JsText.DecimalRoundTrip | se/updated/project/src/components/Chat.tsx:161 | `Number()` on the decimal numeral of a natural number gives that number |
| JsText.ToNumber | se/updated/project/src/components/Chat.tsx:161 | a blank string converts to 0; the result is infinite exactly for `Infinity`, `+Infinity` or `-Infinity` after trimming, negative only for the last; a `0x`/`0o`/`0b` literal never converts to a negative number |
| JsText.ToNumberOfTrimmed | se/updated/project/src/components/Chat.tsx:161 | whitespace around the numeral does not change what it converts to |
| ChatCommon.IsMoodRating | se/updated/project/src/components/Chat.tsx:161 | the rating test holds exactly when the input converts to a finite number from 1 to 10 (NaN and the infinities fail it) |
| ChatCommon.MoodReply | se/updated/project/src/components/Chat.tsx:163-166 | the reply echoes the input verbatim after the fixed opening, then the support follow-up exactly when `Number(input) < 5`, otherwise the positive one (for NaN too) |
| ChatCommon.NumeralRatings | se/updated/project/src/components/Chat.tsx:161-166 | every numeral from 1 to 10 is a rating, and it gets the support follow-up exactly when it is below 5 |
| ChatCommon.NumeralNonRatings | se/updated/project/src/components/Chat.tsx:161 | the numerals of 0 and of numbers above 10 are not ratings |
| ChatCommon.FractionalRating | se/updated/project/src/components/Chat.tsx:161-164 | a non-integer such as "4.5" is accepted as a rating, and counts as low |
| Chat.Mount | se/updated/project/src/components/Chat.tsx:114-143 | with no saved conversation the transcript is the single opening prompt, unrated, with no mood; otherwise the saved messages, rating flag, mood and conversation are restored |
| Chat.Send | se/updated/project/src/components/Chat.tsx:145-187 | blank input changes nothing. Otherwise the input is cleared and the earlier transcript kept; the user's message is appended, then one bot message. On the mood turn the bot message is the canned reply and mood and rated are set; on any other turn it is the backend's text or the apology, and the mood state is kept |
| Chat.Unmount | se/updated/project/src/components/Chat.tsx:97-112 | an empty transcript saves nothing. Otherwise only `savedConversation` is written, with the transcript and mood state, defaulting to a fresh id, owner `user123` and topic 'Continued Chat'. `conversations` is never touched |
| Chat.StartNewChat | se/updated/project/src/components/Chat.tsx:222-232 | the click handler's own effect: the transcript becomes one opening prompt, unrated, with no mood and no current conversation; the handler removes `savedConversation` and keeps the rest of storage (the effect cleanup that writes it back is not modelled, see Left out) |
| Chat.MoodCapturedIff | se/updated/project/src/components/Chat.tsx:161-175 | a send turns an unrated chat rated exactly when the input is non-blank and the bootstrap guard holds |
| Chat.SaveRestoreRoundTrip | se/updated/project/src/components/Chat.tsx:97-133 | leaving the page and reopening it restores the transcript, mood and rating flag, and the conversation when its fields were set |
| Chat.StartNewChatIsFreshMount | se/updated/project/src/components/Chat.tsx:222-232 | after "Start New Chat" the view is the one a first visit shows |
| Chat.NumeralNotBlank | se/updated/project/src/components/Chat.tsx:146 | a typed numeral is never blank input |
| Chat.FirstVisitBootstrap | se/updated/project/src/components/Chat.tsx:134-175 | on a first visit, answering the prompt with 1 to 10 yields prompt, answer, canned reply, and records the mood |
| Chat.NumeralMoodReply | se/updated/project/src/components/Chat.tsx:163-166 | the canned reply to the numeral k echoes it and picks the support follow-up exactly when k < 5 |
| Chat.RatedGoesToBackend | se/updated/project/src/components/Chat.tsx:161-186 | once rated, every non-blank message is answered with the backend's text |
| Chat.SendAlternates | se/updated/project/src/components/Chat.tsx:152-186 | a non-blank send keeps the transcript alternating bot, user, bot |
| Chat.SendExtends | se/updated/project/src/components/Chat.tsx:145-187 | a send extends a session transcript by one user/bot pair carrying the input when it is not blank, and changes nothing otherwise; the box is cleared only in the first case |
| Chat.Session | se/updated/project/src/components/Chat.tsx:134-187 | over any sequence of inputs, the number of pairs sent is the number of non-blank inputs; the transcript opens with the prompt and alternates, user message k carries the k-th non-blank input, and the box ends empty unless the last input was blank (which stays in it) |
| ChatAbis.Mount | se/abis/Chat.tsx:54-81 | a conversation under `currentConversation` is resumed (messages, conversation, rated) and the key removed; otherwise the single opening prompt |
| ChatAbis.Send | se/abis/Chat.tsx:83-122 | blank input changes nothing; the input is never cleared and the rating flag never set. The user's message, then the canned reply (mood recorded) or the backend's text, is appended |
| ChatAbis.BootstrapAtMostOnce | se/abis/Chat.tsx:97-111 | after the canned reply the chat is still unrated, yet the guard cannot fire again, because the transcript has three messages |
| ChatAbis.RepeatedSend | se/abis/Chat.tsx:83-122 | pressing send twice sends the same text twice, and the second copy goes to the backend |
| ChatAbis.ResumedGoesToBackend | se/abis/Chat.tsx:69-113 | a resumed conversation never gets the canned mood reply |
| SignUp.IsOver18 | se/updated/project/src/components/SignUp.tsx:34-39 | an unparsable birthdate fails; otherwise the age rule accepts exactly when the eighteenth birthday is today or earlier in calendar order |
| SignUp.EighteenthBirthday | se/updated/project/src/components/SignUp.tsx:36-39 | turning 18 today is accepted and the day before is not |
| SignUp.Submit | se/updated/project/src/components/SignUp.tsx:26-66 | success holds exactly when all four checks pass. The first failing check, in the order gender, age, passwords, email, gives its message and leaves storage unchanged. Success appends exactly the new record |
| SignUp.SubmitKeepsEmailsDistinct | se/updated/project/src/components/SignUp.tsx:53-64 | sign-up keeps registry emails pairwise distinct |
| SignIn.FindByEmail | se/updated/project/src/components/SignIn.tsx:47 | finds the first registry record with the email, or reports that none has it |
| SignIn.Lookup | se/updated/project/src/components/SignIn.tsx:46-61 | success holds exactly when the first record with the email has the typed password; `currentUser` becomes that record. Failure gives 'Invalid email or password' and changes nothing |
| SignIn.SignIn | se/updated/project/src/components/SignIn.tsx:23-64 | the administrator pair signs in as the admin record; the admin outcome needs that exact pair. The registry is never modified. A rejection changes nothing |
| SignIn.NonAdminUsesRegistry | se/updated/project/src/components/SignIn.tsx:31-49 | every other pair, including the admin email with another password, goes through the registry lookup |
| SignIn.AdminIgnoresRegistry | se/updated/project/src/components/SignIn.tsx:31-43 | the administrator's record does not depend on the registry |
| Profile.UpdateWhere | se/updated/project/src/components/Profile.tsx:57-59 | records with the email are updated, all others kept, and the length preserved |
| Profile.ToUser | se/updated/project/src/components/Profile.tsx:61 | the written `currentUser` holds exactly the five profile fields: no password, not admin, no join date |
| Profile.Load | se/updated/project/src/components/Profile.tsx:26-43 | redirects exactly when nobody is signed in; otherwise shows the signed-in record's fields |
| Profile.Edit | se/updated/project/src/components/Profile.tsx:45-48 | marks the field as being edited and copies its value into the edit box |
| Profile.Change | se/updated/project/src/components/Profile.tsx:71-73 | typing sets that field's edit box only |
| Profile.Save | se/updated/project/src/components/Profile.tsx:50-64 | with an edit value, only that profile field changes; matching registry records get the field and the others are kept. The field leaves edit mode either way |
| Profile.PickBirthdate | se/updated/project/src/components/Profile.tsx:199-207 | picking a date writes to storage exactly what a plain save of the birthdate writes, never the picked date; the picked date is shown only when no edit box value exists |
| Profile.Cancel | se/updated/project/src/components/Profile.tsx:66-69 | the profile is kept, edit mode ends, and the edit box is reset to the profile value |
| Profile.ChangeLanguage | se/updated/project/src/components/Profile.tsx:75-87 | only the language changes, in the profile and in matching records, and the dropdown closes |
| Profile.SaveProfile | se/updated/project/src/components/Profile.tsx:89-97 | matching records get all five profile fields and keep their password; other records are kept |
| Profile.ReloadShowsWrittenProfile | se/updated/project/src/components/Profile.tsx:36-42 | reopening the page after a write shows what was written |
| Profile.EditThenSaveKeepsProfile | se/updated/project/src/components/Profile.tsx:45-53 | edit followed by save without typing keeps the profile |
| Profile.SaveDropsCredentials | se/updated/project/src/components/Profile.tsx:61 | after a field save, `currentUser` has lost its password and admin flag |
| History.Load | se/updated/project/src/components/History.tsx:26-40 | redirects exactly when nobody is signed in; otherwise lists exactly the signed-in email's conversations (with multiplicity), newest first |
| History.Delete | se/updated/project/src/components/History.tsx:42-47 | the list keeps exactly the entries with another id, each as often as before, and storage is overwritten with that list |
| History.DeleteOne | se/updated/project/src/components/History.tsx:43 | deleting a unique id keeps the other entries in their order |
| History.DeleteDropsOtherUsers | se/updated/project/src/components/History.tsx:43-45 | after a delete, storage holds only the signed-in user's conversations |
| History.ClearAll | se/updated/project/src/components/History.tsx:160-167 | storage keeps exactly the conversations owned by someone other than the signed-in email, and the list is emptied |
| History.ClearAllThenLoad | se/updated/project/src/components/History.tsx:162-166 | after clearing, reopening the page lists nothing |
| History.Continue | se/updated/project/src/components/History.tsx:49-56 | the conversation is stored unchanged under `currentConversation` |
| History.Keys | se/updated/project/src/components/History.tsx:81-86 | the group labels are distinct and are exactly the labels of the listed conversations |
| History.ReferenceStep | se/updated/project/src/components/History.tsx:81-87 | one more step of the `forEach` extends the direct grouping by one push |
| History.GroupByDate | se/updated/project/src/components/History.tsx:77-89 | the loop computes the direct grouping of the date-filtered list |
| History.GroupsPartition | se/updated/project/src/components/History.tsx:77-89 | labels are distinct and no group is empty; each listed conversation is in exactly the group of its label |
| MoodTracker.PeriodEntries | se/updated/project/src/components/MoodTracker.tsx:30-46 | exactly the user's entries dated from the period start to today (with multiplicity), newest first |
| MoodTracker.Load | se/updated/project/src/components/MoodTracker.tsx:19-67 | redirects exactly when nobody is signed in. With entries, the average is their mean, between the lowest and highest mood; without, the previous average and trend are kept |
| MoodTracker.FirstLoadWithoutEntries | se/updated/project/src/components/MoodTracker.tsx:16-51 | on a first load with no entries the average reads 0 |
| MoodTracker.LegendBand | se/updated/project/src/components/MoodTracker.tsx:177-189 | the legend has a band exactly for the moods from 1 to 10 |
| MoodTracker.ColorOf | se/updated/project/src/components/MoodTracker.tsx:69-73 | each mood from 1 to 10 gets its legend band's colour; below the scale is red, above it green |
| MoodTracker.Bars | se/updated/project/src/components/MoodTracker.tsx:148 | at most seven bars, the first seven entries in reverse order |
| MoodTracker.BarsAreNewestOldestFirst | se/updated/project/src/components/MoodTracker.tsx:148 | on a newest-first list the bars run oldest to newest, and no entry left off is newer than one shown |
| MoodTracker.Comment | se/updated/project/src/components/MoodTracker.tsx:75-85 | no data gives the invitation to start tracking, otherwise the trend's text |
| MoodTracker.CommentCases | se/updated/project/src/components/MoodTracker.tsx:75-85 | the invitation appears exactly when there is no data, whatever the trend; with data the three trends give three different texts |
| Feedback.FilledPrefix | se/updated/project/src/components/Feedback.tsx:64-74 | a row of n stars has the rating, clamped to 0..n, filled |
| Feedback.StarsShowRating | se/updated/project/src/components/Feedback.tsx:64-74 | the filled stars are a prefix of the five, and as many as the rating clamped to 0..5 |
| Feedback.ClickStar | se/updated/project/src/components/Feedback.tsx:64-69 | clicking star k fills exactly stars 1..k and keeps the comment |
| Feedback.TypeComment | se/updated/project/src/components/Feedback.tsx:83-85 | typing replaces the comment only |
| Feedback.Entry | se/updated/project/src/components/Feedback.tsx:27-35 | the entry carries the user's email and name, or 'anonymous' and 'Anonymous User', with the rating as given |
| Feedback.Submit | se/updated/project/src/components/Feedback.tsx:24-49 | an empty required comment submits nothing. Otherwise exactly one entry is appended after the stored ones and nothing else in storage changes; the rating and comment reset, all stars go blank, and the banner shows |
| AdminDashboard.Load | se/updated/project/src/components/AdminDashboard.tsx:47-63 | redirects exactly when nobody or a non-administrator is signed in; otherwise loads the three stored lists as they are |
| AdminDashboard.Since | se/updated/project/src/components/AdminDashboard.tsx:81-83 | keeps exactly the records dated on or after the period start (with multiplicity); undated records are never kept |
| AdminDashboard.GetStats | se/updated/project/src/components/AdminDashboard.tsx:65-97 | new users and chats are the period counts, each at most the unfiltered totals; total feedbacks counts the period only. The average is 0 with no period feedback, else their mean, between the lowest and highest rating |
| AdminDashboard.UndatedUsersAreNeverNew | se/updated/project/src/components/AdminDashboard.tsx:81 | records without a join date are never new |
| AdminDashboard.Recent | se/updated/project/src/components/AdminDashboard.tsx:218 | the recent list is the first five stored entries |
| Integration.ContinueNotResumedByChat | se/updated/project/src/components/Chat.tsx:114-143 | for every store, the current chat view opens after "Continue" exactly what it opens without it (the last saved conversation, or with none saved a fresh chat with the opening prompt only) |
| Integration.ContinueResumedByChatAbis | se/abis/Chat.tsx:54-71 | after "Continue", the earlier chat view resumes the conversation and removes the key |
| Integration.ChatNeverReachesHistory | se/updated/project/src/components/Chat.tsx:97-112 | leaving the current chat page never changes what the history page lists; a new conversation is saved under owner `user123` |
| Integration.ChatMoodNeverReachesTracker | se/updated/project/src/components/MoodTracker.tsx:27 | leaving the current chat page never changes what the mood tracker shows |
| Integration.ApplyKeepsUndated | se/updated/project/src/components/SignUp.tsx:58-64 | every account handler keeps a registry without join dates free of them |
| Integration.RunKeepsUndated | se/updated/project/src/components/SignUp.tsx:58-64 | any sequence of account handlers keeps a registry without join dates free of them |
| Integration.NoUserIsEverNew | se/updated/project/src/components/AdminDashboard.tsx:81 | from a fresh browser, the dashboard's new-user count is 0 for every period |
| Integration.SignUpThenSignIn | se/updated/project/src/components/SignIn.tsx:46-52 | after a successful sign-up, signing in with the same email and password signs in as the record just written |
| Integration.SignUpThenWrongPassword | se/updated/project/src/components/SignIn.tsx:46-61 | after a successful sign-up, any other password is refused |
| Integration.NewFeedbackNotRecent | se/updated/project/src/components/AdminDashboard.tsx:218 | once five entries exist, a new submission leaves "Recent Feedback" as it was |
| Integration.StarRowsAgree | se/updated/project/src/components/AdminDashboard.tsx:223-228 | the dashboard's 0-based rule `i < rating` and the form's 1-based rule `k <= rating` draw the same row |

## Left out

- The rendered markup, CSS, scrolling, the emoji picker and speech input. The home, about, navigation-bar and routing files are not part of this model.
- The Flask backend with its retrieval index and language model is not part of this model. A request is `Replied(response)` or `Failed`; a reply without a `response` field is not distinguished.
- `fetch`, `setTimeout` delays and `navigate`. Redirects are the `Redirected` outcome; the timed hiding of banners and moves to other pages are not modelled.
- `crypto.randomUUID()` and the clock are parameters.
- Date parsing, time zones and locale formatting. Dates are integers. The history view's labels ("Today", "Yesterday", long dates) and ISO-day strings are functions passed in. The period start of the mood tracker and dashboard is passed in, so `setDate`/`setMonth`/`setHours` arithmetic is not modelled.
- History.GroupByDate: groups come out in order of first appearance. That is the key order of the source's object only because its labels are never integer-like strings.
- `isProcessing`, `lastActivityTime`, `isLoading`, the selected tab and period buttons, and the conversation detail view: view-only state.
- Chat.Send: one send is atomic, the user's message and the reply in one step; a second send while the backend call is pending is not modelled.
- Chat.Unmount: the save is modelled as one write when the page is left. React also runs the cleanup before every re-run of the effect, writing the previous state after each change.
- Chat.StartNewChat: the removal of `savedConversation` is what the click handler does, but it does not last. The save effect depends on the messages, the current conversation, the rated flag and the mood (Chat.tsx:112); the button changes them, so the effect's cleanup runs at the next commit and writes the previous transcript back. A reload then restores the old chat. The model states only the handler's own write.
- JsText.ToNumber: decimal values are exact reals. Rounding to doubles, and exponents so large that a double overflows to Infinity, are not modelled. So the model disagrees with JavaScript on numerals with more digits than a double holds: "0.99999999999999999" rounds to 1 in JavaScript and is a rating there, but not in the model; "4.99999999999999999" rounds to 5 and gets the positive follow-up there, but the support one in the model.
- SignUp: the inline birthdate field and clearing the error on typing are not modelled. The birthdate's parse is given as an optional (year, month, day).
- SignUp.Submit, SignIn.SignIn: the browser's form validation is not modelled. The `required` attributes and the `type="email"` field (SignUp.tsx:144-209, SignIn.tsx:132-156) stop submits that the model accepts, such as one with an empty email.
- History.Load: the order is stated as newest first. The model's sort is stable, but the contract does not state how equal dates are ordered.
- MoodTracker.Load: the average is the exact mean; the source rounds it to one decimal with `toFixed(1)`. The trend is taken as a parameter. Its source computation uses fractional `slice` indices and floating point, and is not modelled.
- AdminDashboard.GetStats: the average rating is the exact mean; the source shows it as a `toFixed(1)` string. The engagement figures and bar heights are not modelled.
- Feedback.Submit: the empty-comment case models the browser's check of the `required` attribute on the comment box (Feedback.tsx:88). Hiding the banner after three seconds is not modelled.
