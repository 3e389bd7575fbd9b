/** What the two chat views share: the view state, the canned bot texts, the
    rule that reads the first reply as a mood rating, and the backend call
    (`getBotResponse`) reduced to its two outcomes. */
module ChatCommon {
  import opened Base
  import opened JsText
  import opened Storage

  const OpeningPrompt: string :=
    "Hello! How are you feeling today? (Please rate your mood from 1-10, where 1 is very low and 10 is excellent)"

  /** What `getBotResponse` returns when the request or the JSON decoding fails. */
  const Apology: string := "Sorry, I couldn't process your request at the moment."

  const SupportFollowUp: string :=
    "I'm here to support you. Would you like to talk about what's bothering you?"

  const PositiveFollowUp: string :=
    "That's great! Would you like to share what's making you feel good today?"

  /** The outcome of the POST to the chat endpoint: the `response` field of the
      reply, or a failure (network error, bad JSON). */
  datatype Backend = Replied(response: string) | Failed

  /** The text `getBotResponse` resolves to. */
  function BackendText(b: Backend): string
  {
    match b
    case Replied(r) => r
    case Failed => Apology
  }

  /** The React state both chat views keep. */
  datatype ChatView = ChatView(
    input: string,
    messages: seq<Message>,
    mood: string,
    isMoodRated: bool,
    current: Option<Conversation>)

  /** The `useState` initial values. */
  function Initial(): ChatView
  {
    ChatView("", [], "", false, None)
  }

  /** Fresh values one send needs: two `crypto.randomUUID()` ids and the clock. */
  datatype SendIds = SendIds(userMessageId: string, botMessageId: string, now: int)

  function BotMessage(id: string, text: string, now: int): Message
  {
    Message(id, text, FromBot, now)
  }

  function OpeningMessage(id: string, now: int): Message
  {
    BotMessage(id, OpeningPrompt, now)
  }

  /** `!isNaN(Number(s)) && Number(s) >= 1 && Number(s) <= 10`: the rule
      accepts exactly the strings that convert to a finite number in [1, 10];
      an infinite or NaN conversion is never a rating. */
  predicate IsMoodRating(s: string): (r: bool)
    ensures r <==> ToNumber(s).Finite? && 1.0 <= ToNumber(s).value <= 10.0
  {
    var n := ToNumber(s);
    n != NaN && AtLeast(n, 1.0) && AtMost(n, 10.0)
  }

  const ReplyOpening: string := "Thank you for sharing. I see your mood is "

  /** The canned answer to a mood rating: it echoes the input as typed, and
      the follow-up is the supportive one exactly when `Number(input) < 5`
      holds, the positive one otherwise (a NaN included). */
  function MoodReply(input: string): (r: string)
    ensures var head := ReplyOpening + input + "/10. ";
      && |head| < |r|
      && r[..|head|] == head
      && (r[|head|..] == SupportFollowUp || r[|head|..] == PositiveFollowUp)
      && (r[|head|..] == SupportFollowUp <==> Below(ToNumber(input), 5.0))
  {
    var followUp := if Below(ToNumber(input), 5.0) then SupportFollowUp else PositiveFollowUp;
    var head := ReplyOpening + input + "/10. ";
    assert |SupportFollowUp| == 75 && |PositiveFollowUp| == 72;
    assert (head + followUp)[|head|..] == followUp;
    head + followUp
  }

  /** Every whole number from 1 to 10, typed as a numeral, is a mood rating,
      and it gets the support follow-up exactly when it is below 5. */
  lemma NumeralRatings(k: nat)
    requires 1 <= k <= 10
    ensures IsMoodRating(Decimal(k))
    ensures Below(ToNumber(Decimal(k)), 5.0) <==> k < 5
  {
    DecimalRoundTrip(k);
  }

  /** Ratings outside 1..10 are not moods. */
  lemma NumeralNonRatings(k: nat)
    requires k == 0 || k > 10
    ensures !IsMoodRating(Decimal(k))
  {
    DecimalRoundTrip(k);
  }

  /** The StrUnsignedDecimalLiteral "4.5" denotes 4.5. */
  lemma FourPointFive()
    ensures UnsignedDecimal("4.5") == Finite(4.5)
  {
    var s := "4.5";
    var e := IndexWhere(s, c => c == 'e' || c == 'E');
    assert e == 3;
    assert s[..e] == s;
    var dot := IndexWhere(s, c => c == '.');
    assert dot == 1;
    assert s[..dot] == "4" && s[dot + 1..] == "5";
    assert DigitsValue("4" + "5", 10) == 45 by {
      assert "4" + "5" == "45";
      assert "45"[..1] == "4";
      assert "4"[..0] == "";
    }
  }

  /** The rule is not limited to whole numbers: "4.5" is a rating, and a low one. */
  lemma FractionalRating()
    ensures IsMoodRating("4.5") && Below(ToNumber("4.5"), 5.0)
  {
    TrimUnpadded("4.5");
    assert RadixPrefix("4.5") == 0;
    FourPointFive();
    assert ToNumber("4.5") == UnsignedDecimal("4.5");
  }

  /** A chat view's state together with local storage, after a handler. */
  datatype Step = Step(view: ChatView, store: Store)

  /** The guard of the mood bootstrap, read from the state before the send:
      no rating yet, exactly one message (the opening prompt) on screen, and an
      input that is a rating. */
  predicate IsMoodTurn(v: ChatView)
  {
    !v.isMoodRated && |v.messages| == 1 && IsMoodRating(v.input)
  }

  /** A transcript that opens with a bot message and then alternates one user
      message and one bot reply. */
  ghost predicate Alternates(msgs: seq<Message>)
  {
    && |msgs| % 2 == 1
    && (forall i :: 0 <= i < |msgs| && i % 2 == 0 ==> msgs[i].sender == FromBot)
    && (forall i :: 0 <= i < |msgs| && i % 2 == 1 ==> msgs[i].sender == FromUser)
  }
}
