/** The earlier chat view: it resumes a conversation handed over under the
    `currentConversation` key (and removes the key), does not clear the input
    on send, never records that the mood was rated, and saves nothing. */
module ChatAbis {
  import opened Base
  import opened JsText
  import opened Storage
  import opened ChatCommon

  /** The mount effect run from view state `v`. */
  function MountFrom(v: ChatView, store: Store, promptId: string, now: int): Step
  {
    match store.currentConversation
    case Some(c) =>
      Step(v.(messages := c.messages, current := Some(c), isMoodRated := true),
           store.(currentConversation := None))
    case None =>
      Step(if |v.messages| == 0 then v.(messages := [OpeningMessage(promptId, now)]) else v, store)
  }

  /** Opening the chat page. */
  function Mount(store: Store, promptId: string, now: int): (r: Step)
    ensures r.store == store.(currentConversation := None)
    ensures store.currentConversation.Some? ==>
      && r.view.messages == store.currentConversation.value.messages
      && r.view.current == store.currentConversation
      && r.view.isMoodRated
    ensures store.currentConversation.None? ==>
      r.view.messages == [OpeningMessage(promptId, now)] && !r.view.isMoodRated && r.view.current.None?
  {
    MountFrom(Initial(), store, promptId, now)
  }

  /** `handleSendMessage`: ignore blank input; otherwise append the user's
      message, then the canned mood reply or the backend's. The input stays. */
  function Send(v: ChatView, ids: SendIds, backend: Backend): (r: ChatView)
    ensures IsBlank(v.input) ==> r == v
    ensures r.input == v.input && r.isMoodRated == v.isMoodRated && r.current == v.current
    ensures !IsBlank(v.input) ==>
      && |r.messages| == |v.messages| + 2
      && r.messages[..|v.messages|] == v.messages
      && r.messages[|v.messages|] == Message(ids.userMessageId, v.input, FromUser, ids.now)
      && r.messages[|v.messages| + 1].sender == FromBot
    ensures !IsBlank(v.input) && IsMoodTurn(v) ==>
      r.messages[|v.messages| + 1].text == MoodReply(v.input) && r.mood == v.input
    ensures !IsBlank(v.input) && !IsMoodTurn(v) ==>
      r.messages[|v.messages| + 1].text == BackendText(backend) && r.mood == v.mood
  {
    if IsBlank(v.input) then v
    else
      var user := Message(ids.userMessageId, v.input, FromUser, ids.now);
      if IsMoodTurn(v) then
        v.(messages := v.messages + [user, BotMessage(ids.botMessageId, MoodReply(v.input), ids.now)],
           mood := v.input)
      else
        v.(messages := v.messages + [user, BotMessage(ids.botMessageId, BackendText(backend), ids.now)])
  }

  /* ---------------------------------------------------------------------- */

  /** The canned reply is given at most once per transcript: right after it
      the transcript has three messages, so the guard cannot hold again, even
      though `isMoodRated` stays false. */
  lemma BootstrapAtMostOnce(v: ChatView, ids: SendIds, backend: Backend)
    requires !IsBlank(v.input) && IsMoodTurn(v)
    ensures var r := Send(v, ids, backend);
      !r.isMoodRated && !IsMoodTurn(r)
  {
  }

  /** Pressing send twice sends the same text twice, and the second copy is
      answered by the backend. */
  lemma RepeatedSend(v: ChatView, ids: SendIds, ids2: SendIds, backend: Backend, backend2: Backend)
    requires !IsBlank(v.input)
    ensures var r := Send(Send(v, ids, backend), ids2, backend2);
      && |r.messages| == |v.messages| + 4
      && r.messages[|v.messages| + 2] == Message(ids2.userMessageId, v.input, FromUser, ids2.now)
      && r.messages[|v.messages| + 3].text == BackendText(backend2)
  {
    var r1 := Send(v, ids, backend);
    assert !IsMoodTurn(r1);
  }

  /** A resumed conversation never gets the canned mood reply. */
  lemma ResumedGoesToBackend(store: Store, promptId: string, now: int, input: string, ids: SendIds, backend: Backend)
    requires store.currentConversation.Some? && !IsBlank(input)
    ensures var v := Mount(store, promptId, now).view.(input := input);
      Send(v, ids, backend).messages[|v.messages| + 1].text == BackendText(backend)
  {
  }
}
