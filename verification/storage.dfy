/** The records the views keep in the browser's local storage, and the
    store itself: one value per storage key. A key that holds a JSON array
    and is absent reads as the empty array (every reader falls back to
    `'[]'`); a key that holds one object is an `Option`. Timestamps and
    dates are integers (milliseconds since the epoch). */
module Storage {
  import opened Base

  datatype Sender = FromUser | FromBot

  datatype Message = Message(id: string, text: string, sender: Sender, timestamp: int)

  datatype Conversation = Conversation(
    id: string,
    userId: string,
    date: int,
    topic: string,
    messages: seq<Message>)

  /** The updated chat view's snapshot: a conversation plus its mood state. */
  datatype SavedConversation = SavedConversation(
    conversation: Conversation,
    isMoodRated: bool,
    mood: string)

  /** A user record as the views write it. The sign-up form writes fullname,
      email, gender, birthdate and password; the admin sign-in writes email,
      fullname and `isAdmin`; the profile view writes the five profile fields.
      Fields a writer leaves out are `None` (for `isAdmin`: false, since it is
      only ever read for truthiness). No view writes `joinDate`. */
  datatype User = User(
    fullname: string,
    email: string,
    gender: Option<string>,
    birthdate: Option<string>,
    password: Option<string>,
    language: Option<string>,
    isAdmin: bool,
    joinDate: Option<int>)

  datatype MoodEntry = MoodEntry(userId: string, mood: int, date: int, note: Option<string>)

  datatype FeedbackEntry = FeedbackEntry(
    id: string,
    userId: string,
    userName: string,
    rating: int,
    comment: string,
    date: int)

  /** The local-storage keys `users`, `currentUser`, `conversations`,
      `savedConversation`, `currentConversation`, `feedbacks`, `moodHistory`. */
  datatype Store = Store(
    users: seq<User>,
    currentUser: Option<User>,
    conversations: seq<Conversation>,
    savedConversation: Option<SavedConversation>,
    currentConversation: Option<Conversation>,
    feedbacks: seq<FeedbackEntry>,
    moodHistory: seq<MoodEntry>)

  /** A browser that has never run the application. */
  function EmptyStore(): Store
  {
    Store([], None, [], None, None, [], [])
  }

  /** `JSON.parse(localStorage.getItem('currentUser') || '{}').email`, with the
      missing field of the empty object as `None`. */
  function CurrentEmail(s: Store): Option<string>
  {
    match s.currentUser
    case None => None
    case Some(u) => Some(u.email)
  }
}
