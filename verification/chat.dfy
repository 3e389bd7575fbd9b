/** The chat view of the current application version: it restores and saves
    its state under the `savedConversation` key, clears the input on send, and
    records that the mood was rated. */
module Chat {
  import opened Base
  import opened JsText
  import opened Storage
  import opened ChatCommon

  /** The mount effect run from view state `v`: restore the saved
      conversation when there is one, otherwise greet an empty transcript. */
  function MountFrom(v: ChatView, store: Store, promptId: string, now: int): ChatView
  {
    match store.savedConversation
    case Some(saved) =>
      v.(messages := saved.conversation.messages,
         current := Some(saved.conversation),
         isMoodRated := saved.isMoodRated,
         mood := saved.mood)
    case None =>
      if |v.messages| == 0 then v.(messages := [OpeningMessage(promptId, now)]) else v
  }

  /** Opening the chat page. */
  function Mount(store: Store, promptId: string, now: int): (r: ChatView)
    ensures r.input == ""
    ensures store.savedConversation.None? ==>
      r.messages == [OpeningMessage(promptId, now)] && !r.isMoodRated && r.mood == "" && r.current.None?
    ensures store.savedConversation.Some? ==>
      var saved := store.savedConversation.value;
      && r.messages == saved.conversation.messages
      && r.isMoodRated == saved.isMoodRated
      && r.mood == saved.mood
      && r.current == Some(saved.conversation)
  {
    MountFrom(Initial(), store, promptId, now)
  }

  /** `handleSendMessage`: ignore blank input; otherwise clear the input, append
      the user's message, then either the canned mood reply or the backend's. */
  function Send(v: ChatView, ids: SendIds, backend: Backend): (r: ChatView)
    ensures IsBlank(v.input) ==> r == v
    ensures !IsBlank(v.input) ==>
      && r.input == ""
      && r.current == v.current
      && |r.messages| == |v.messages| + 2
      && r.messages[..|v.messages|] == v.messages
      && r.messages[|v.messages|] == Message(ids.userMessageId, v.input, FromUser, ids.now)
      && r.messages[|v.messages| + 1].sender == FromBot
    ensures !IsBlank(v.input) && IsMoodTurn(v) ==>
      && r.messages[|v.messages| + 1].text == MoodReply(v.input)
      && r.mood == v.input
      && r.isMoodRated
    ensures !IsBlank(v.input) && !IsMoodTurn(v) ==>
      && r.messages[|v.messages| + 1].text == BackendText(backend)
      && r.mood == v.mood
      && r.isMoodRated == v.isMoodRated
  {
    if IsBlank(v.input) then v
    else
      var user := Message(ids.userMessageId, v.input, FromUser, ids.now);
      if IsMoodTurn(v) then
        v.(input := "",
           messages := v.messages + [user, BotMessage(ids.botMessageId, MoodReply(v.input), ids.now)],
           mood := v.input,
           isMoodRated := true)
      else
        v.(input := "",
           messages := v.messages + [user, BotMessage(ids.botMessageId, BackendText(backend), ids.now)])
  }

  /** The conversation the unmount effect writes: the current conversation's
      id, owner, date and topic, each falling back to a default when absent or
      empty, with the transcript on screen. */
  function Snapshot(v: ChatView, freshId: string, now: int): Conversation
  {
    match v.current
    case None => Conversation(freshId, "user123", now, "Continued Chat", v.messages)
    case Some(c) =>
      Conversation(OrElse(c.id, freshId), OrElse(c.userId, "user123"), c.date,
                   OrElse(c.topic, "Continued Chat"), v.messages)
  }

  /** The cleanup of the save effect, run when the page is left. */
  function Unmount(v: ChatView, store: Store, freshId: string, now: int): (r: Store)
    ensures |v.messages| == 0 ==> r == store
    ensures |v.messages| > 0 ==>
      && r.savedConversation.Some?
      && r == store.(savedConversation := r.savedConversation)
      && r.savedConversation.value.conversation.messages == v.messages
      && r.savedConversation.value.isMoodRated == v.isMoodRated
      && r.savedConversation.value.mood == v.mood
    ensures |v.messages| > 0 && v.current.None? ==>
      var c := r.savedConversation.value.conversation;
      c.id == freshId && c.userId == "user123" && c.topic == "Continued Chat" && c.date == now
    ensures r.conversations == store.conversations
  {
    if |v.messages| > 0 then
      store.(savedConversation := Some(SavedConversation(Snapshot(v, freshId, now), v.isMoodRated, v.mood)))
    else store
  }

  /** The "Start New Chat" button. The input box is left as it was. */
  function StartNewChat(v: ChatView, store: Store, promptId: string, now: int): (r: Step)
    ensures r.view.messages == [OpeningMessage(promptId, now)]
    ensures !r.view.isMoodRated && r.view.mood == "" && r.view.current.None?
    ensures r.view.input == v.input
    ensures r.store == store.(savedConversation := None)
  {
    Step(v.(messages := [OpeningMessage(promptId, now)], current := None, isMoodRated := false, mood := ""),
         store.(savedConversation := None))
  }

  /* ---------------------------------------------------------------------- */

  /** The mood is captured by a send exactly when the bootstrap guard holds. */
  lemma MoodCapturedIff(v: ChatView, ids: SendIds, backend: Backend)
    ensures !v.isMoodRated && Send(v, ids, backend).isMoodRated <==> !IsBlank(v.input) && IsMoodTurn(v)
  {
  }

  /** Leaving the page and coming back restores the transcript, the mood state
      and (when its fields were set) the current conversation. */
  lemma SaveRestoreRoundTrip(v: ChatView, store: Store, freshId: string, now: int, promptId: string, later: int)
    requires |v.messages| > 0
    ensures var r := Mount(Unmount(v, store, freshId, now), promptId, later);
      && r.messages == v.messages
      && r.isMoodRated == v.isMoodRated
      && r.mood == v.mood
      && (var c := v.current;
          c.Some? && c.value.id != "" && c.value.userId != "" && c.value.topic != "" ==>
            r.current == Some(c.value.(messages := v.messages)))
  {
  }

  /** After "Start New Chat" the view is what a first visit shows. */
  lemma StartNewChatIsFreshMount(v: ChatView, store: Store, promptId: string, now: int)
    ensures var r := StartNewChat(v, store, promptId, now);
      r.view == Mount(r.store, promptId, now).(input := v.input)
  {
  }

  /** A numeral typed in answer to the prompt is not blank. */
  lemma NumeralNotBlank(k: nat)
    ensures !IsBlank(Decimal(k))
  {
    var d := Decimal(k);
    BlankIffAllSpace(d);
    assert IsDigit(d[0], 10);
  }

  /** The bootstrap on a first visit: the prompt, then a numeral from 1 to 10,
      answered by the canned reply, after which the mood counts as rated. */
  lemma FirstVisitBootstrap(store: Store, k: nat, promptId: string, now: int, ids: SendIds, backend: Backend)
    requires store.savedConversation.None? && 1 <= k <= 10
    ensures var r := Send(Mount(store, promptId, now).(input := Decimal(k)), ids, backend);
      && r.messages == [OpeningMessage(promptId, now),
                        Message(ids.userMessageId, Decimal(k), FromUser, ids.now),
                        BotMessage(ids.botMessageId, MoodReply(Decimal(k)), ids.now)]
      && r.mood == Decimal(k)
      && r.isMoodRated
  {
    NumeralRatings(k);
    NumeralNotBlank(k);
    var v := Mount(store, promptId, now).(input := Decimal(k));
    var r := Send(v, ids, backend);
    assert r.messages == v.messages + r.messages[1..];
  }

  /** The canned reply to the numeral of `k` echoes it and picks the support
      follow-up exactly when `k < 5`. */
  lemma NumeralMoodReply(k: nat)
    requires 1 <= k <= 10
    ensures MoodReply(Decimal(k)) == ReplyOpening + Decimal(k) + "/10. "
      + (if k < 5 then SupportFollowUp else PositiveFollowUp)
  {
    NumeralRatings(k);
  }

  /** Once the mood is rated, every non-blank message is answered by the backend. */
  lemma RatedGoesToBackend(v: ChatView, ids: SendIds, backend: Backend)
    requires v.isMoodRated && !IsBlank(v.input)
    ensures Send(v, ids, backend).messages[|v.messages| + 1].text == BackendText(backend)
  {
  }

  /** Appending a user message and then a bot message keeps a transcript
      alternating. */
  lemma AppendPairAlternates(msgs: seq<Message>, user: Message, bot: Message)
    requires Alternates(msgs) && user.sender == FromUser && bot.sender == FromBot
    ensures Alternates(msgs + [user, bot])
  {
    var r := msgs + [user, bot];
    var n := |msgs|;
    forall i | 0 <= i < |r|
      ensures i % 2 == 0 ==> r[i].sender == FromBot
      ensures i % 2 == 1 ==> r[i].sender == FromUser
    {
      if i < n {
        assert r[i] == msgs[i];
      }
    }
  }

  /** A non-blank send keeps the transcript alternating. */
  lemma SendAlternates(v: ChatView, ids: SendIds, backend: Backend)
    requires Alternates(v.messages) && !IsBlank(v.input)
    ensures Alternates(Send(v, ids, backend).messages)
  {
    var r := Send(v, ids, backend).messages;
    var n := |v.messages|;
    assert r == v.messages + [r[n], r[n + 1]] by {
      assert r == r[..n] + [r[n], r[n + 1]];
    }
    AppendPairAlternates(v.messages, r[n], r[n + 1]);
  }

  function NonBlank(): string -> bool
  {
    (s: string) => !IsBlank(s)
  }

  /** The transcript of a session in which the non-blank inputs `typed` have
      been sent: the opening prompt, then one user/bot pair per input, the
      user message of pair k carrying `typed[k]`. */
  ghost predicate Transcript(v: ChatView, promptId: string, now: int, typed: seq<string>)
  {
    && Alternates(v.messages)
    && |v.messages| == 1 + 2 * |typed|
    && v.messages[0] == OpeningMessage(promptId, now)
    && forall k :: 0 <= k < |typed| ==> v.messages[2 * k + 1].text == typed[k]
  }

  /** A send extends the session's transcript by the input when it is not
      blank, and changes nothing otherwise. */
  lemma SendExtends(v: ChatView, promptId: string, now: int, typed: seq<string>, ids: SendIds, backend: Backend)
    requires Transcript(v, promptId, now, typed)
    ensures var r := Send(v, ids, backend);
      && Transcript(r, promptId, now, typed + (if NonBlank()(v.input) then [v.input] else []))
      && r.input == (if IsBlank(v.input) then v.input else "")
  {
    if !IsBlank(v.input) {
      SendAlternates(v, ids, backend);
      var r := Send(v, ids, backend);
      var t := typed + [v.input];
      forall k | 0 <= k < |t| ensures r.messages[2 * k + 1].text == t[k] {
        if k < |typed| {
          assert r.messages[2 * k + 1] == r.messages[..|v.messages|][2 * k + 1];
        }
      }
    } else {
      assert typed + [] == typed;
    }
  }

  /** A session: the page is opened with no saved conversation and the user
      types and sends each of `inputs` in turn. Blank inputs are ignored and
      stay in the box; each other input adds one user/bot pair. The
      transcript opens with the prompt, alternates user message and bot
      reply, and its user messages carry the non-blank inputs in order. */
  method Session(store: Store, promptId: string, now: int,
                 inputs: seq<string>, ids: seq<SendIds>, replies: seq<Backend>)
    returns (v: ChatView, sent: nat)
    requires store.savedConversation.None?
    requires |ids| == |inputs| && |replies| == |inputs|
    ensures sent == |Filter(inputs, NonBlank())|
    ensures Alternates(v.messages)
    ensures |v.messages| == 1 + 2 * sent
    ensures v.messages[0] == OpeningMessage(promptId, now)
    ensures forall k :: 0 <= k < sent ==> v.messages[2 * k + 1].text == Filter(inputs, NonBlank())[k]
    ensures v.input == if inputs != [] && IsBlank(inputs[|inputs| - 1]) then inputs[|inputs| - 1] else ""
  {
    v := Mount(store, promptId, now);
    sent := 0;
    var i := 0;
    while i < |inputs|
      invariant 0 <= i <= |inputs|
      invariant sent == |Filter(inputs[..i], NonBlank())|
      invariant Transcript(v, promptId, now, Filter(inputs[..i], NonBlank()))
      invariant v.input == if i > 0 && IsBlank(inputs[i - 1]) then inputs[i - 1] else ""
    {
      var before := v.(input := inputs[i]);
      assert inputs[..i + 1] == inputs[..i] + [inputs[i]];
      FilterSnoc(inputs[..i], inputs[i], NonBlank());
      SendExtends(before, promptId, now, Filter(inputs[..i], NonBlank()), ids[i], replies[i]);
      v := Send(before, ids[i], replies[i]);
      if !IsBlank(inputs[i]) {
        sent := sent + 1;
      }
      i := i + 1;
    }
    assert inputs[..i] == inputs;
  }
}
