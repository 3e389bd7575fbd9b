/** The history view: the signed-in user's stored conversations, newest
    first, with delete, clear-all, continue, and the by-date grouping the
    list is rendered from. */
module History {
  import opened Base
  import opened Storage

  function ByDate(c: Conversation): int
  {
    c.date
  }

  datatype HistoryView = HistoryView(
    conversations: seq<Conversation>,
    selectedDate: string,
    selected: Option<Conversation>)

  /** A view state and the store after a handler that writes both. */
  datatype Edited = Edited(view: HistoryView, store: Store)

  function IsOwner(email: string): Conversation -> bool
  {
    (c: Conversation) => c.userId == email
  }

  function OwnedBy(cs: seq<Conversation>, email: string): seq<Conversation>
  {
    Filter(cs, IsOwner(email))
  }

  /** The mount effect: the conversations whose `userId` is the signed-in
      email, sorted by date, newest first. */
  function Load(store: Store): (r: Guarded<seq<Conversation>>)
    ensures r.Redirected? <==> store.currentUser.None?
    ensures r.Shown? ==> SortedDesc(r.value, ByDate)
    ensures r.Shown? ==>
      forall c :: multiset(r.value)[c] == (if c.userId == store.currentUser.value.email then multiset(store.conversations)[c] else 0)
  {
    match store.currentUser
    case None => Redirected
    case Some(u) =>
      var list := SortDesc(OwnedBy(store.conversations, u.email), ByDate);
      assert forall c :: multiset(list)[c] == multiset(OwnedBy(store.conversations, u.email))[c];
      forall c ensures multiset(OwnedBy(store.conversations, u.email))[c]
                      == if c.userId == u.email then multiset(store.conversations)[c] else 0 {
        FilterCount(store.conversations, IsOwner(u.email), c);
      }
      Shown(list)
  }

  function IdIsNot(id: string): Conversation -> bool
  {
    (c: Conversation) => c.id != id
  }

  function WithoutId(cs: seq<Conversation>, id: string): seq<Conversation>
  {
    Filter(cs, IdIsNot(id))
  }

  /** `handleDeleteConversation`: the listed conversations without the given
      id are both shown and written back as the whole `conversations` key. */
  function Delete(v: HistoryView, id: string, store: Store): (r: Edited)
    ensures forall c :: c in r.view.conversations <==> c in v.conversations && c.id != id
    ensures forall c :: multiset(r.view.conversations)[c] == if c.id != id then multiset(v.conversations)[c] else 0
    ensures r.store == store.(conversations := r.view.conversations)
    ensures r.view.selected.None? && r.view.selectedDate == v.selectedDate
  {
    var rest := WithoutId(v.conversations, id);
    FilterMembers(v.conversations, IdIsNot(id));
    forall c ensures multiset(rest)[c] == if c.id != id then multiset(v.conversations)[c] else 0 {
      FilterCount(v.conversations, IdIsNot(id), c);
    }
    Edited(v.(conversations := rest, selected := None), store.(conversations := rest))
  }

  /** Deleting the one entry with that id leaves the others in their order. */
  lemma DeleteOne(a: seq<Conversation>, x: Conversation, b: seq<Conversation>, v: HistoryView, store: Store)
    requires v.conversations == a + [x] + b
    requires forall i :: 0 <= i < |a| ==> a[i].id != x.id
    requires forall i :: 0 <= i < |b| ==> b[i].id != x.id
    ensures Delete(v, x.id, store).view.conversations == a + b
  {
    FilterDropOne(a, x, b, IdIsNot(x.id));
  }

  /** Deleting after a load drops every other user's conversation from storage. */
  lemma DeleteDropsOtherUsers(store: Store, id: string, selectedDate: string)
    requires store.currentUser.Some?
    ensures var v := HistoryView(Load(store).value, selectedDate, None);
      forall c :: c in Delete(v, id, store).store.conversations ==> c.userId == store.currentUser.value.email
  {
    var list := Load(store).value;
    forall c | c in list ensures c.userId == store.currentUser.value.email {
      assert multiset(list)[c] > 0;
    }
  }

  /** The "Clear All History" button: storage keeps exactly the conversations
      of other owners (all of them when nobody is signed in). */
  function ClearAll(v: HistoryView, store: Store): (r: Edited)
    ensures r.view.conversations == []
    ensures r.store == store.(conversations := r.store.conversations)
    ensures forall c :: multiset(r.store.conversations)[c] == (if Some(c.userId) == CurrentEmail(store) then 0 else multiset(store.conversations)[c])
  {
    var p := (c: Conversation) => Some(c.userId) != CurrentEmail(store);
    var others := Filter(store.conversations, p);
    forall c ensures multiset(others)[c] ==
      if Some(c.userId) == CurrentEmail(store) then 0 else multiset(store.conversations)[c] {
      FilterCount(store.conversations, p, c);
    }
    Edited(v.(conversations := []), store.(conversations := others))
  }

  /** After clearing, reopening the page lists nothing. */
  lemma ClearAllThenLoad(v: HistoryView, store: Store)
    requires store.currentUser.Some?
    ensures Load(ClearAll(v, store).store).value == []
  {
    var s := ClearAll(v, store).store;
    var list := Load(s).value;
    forall c ensures multiset(list)[c] == 0 {
    }
    assert multiset(list) == multiset{};
    assert |list| == |multiset(list)|;
  }

  /** `handleContinueConversation`: the conversation is handed over, unchanged,
      under `currentConversation` (and the chat page is opened). */
  function Continue(c: Conversation, store: Store): (r: Store)
    ensures r == store.(currentConversation := Some(c))
  {
    store.(currentConversation := Some(c))
  }

  /* ---------------------------------------------------------------------- */
  /* groupConversationsByDate                                                */

  datatype DateGroup = DateGroup(key: string, conversations: seq<Conversation>)

  /** The date-picker filter; `isoDay` is the `YYYY-MM-DD` part of the ISO
      form of a date. */
  function DateFiltered(cs: seq<Conversation>, selectedDate: string, isoDay: int -> string): seq<Conversation>
  {
    Filter(cs, (c: Conversation) => selectedDate == "" || isoDay(c.date) == selectedDate)
  }

  function KeyIs(formatDate: int -> string, k: string): Conversation -> bool
  {
    (c: Conversation) => formatDate(c.date) == k
  }

  function WithKey(cs: seq<Conversation>, formatDate: int -> string, k: string): seq<Conversation>
  {
    Filter(cs, KeyIs(formatDate, k))
  }

  /** The distinct labels in order of first appearance. */
  function Keys(cs: seq<Conversation>, formatDate: int -> string): (r: seq<string>)
    ensures forall i, j :: 0 <= i < j < |r| ==> r[i] != r[j]
    ensures forall k :: k in r <==> exists i :: 0 <= i < |cs| && formatDate(cs[i].date) == k
  {
    if cs == [] then []
    else
      var init := cs[..|cs| - 1];
      var prior := Keys(init, formatDate);
      var k := formatDate(cs[|cs| - 1].date);
      assert forall i :: 0 <= i < |init| ==> init[i] == cs[i];
      if k in prior then prior else prior + [k]
  }

  /** The grouping, defined directly: one group per distinct formatDate, in order
      of first appearance, holding that formatDate's conversations in list order. */
  function Reference(cs: seq<Conversation>, formatDate: int -> string): seq<DateGroup>
  {
    var ks := Keys(cs, formatDate);
    seq(|ks|, i requires 0 <= i < |ks| => DateGroup(ks[i], WithKey(cs, formatDate, ks[i])))
  }

  /** One step of the `forEach`: push onto the group with key `k`, creating it
      at the end when missing. */
  function AddTo(groups: seq<DateGroup>, c: Conversation, k: string): seq<DateGroup>
  {
    if groups == [] then [DateGroup(k, [c])]
    else if groups[0].key == k then
      [groups[0].(conversations := groups[0].conversations + [c])] + groups[1..]
    else [groups[0]] + AddTo(groups[1..], c, k)
  }

  lemma {:induction false} AddToExisting(groups: seq<DateGroup>, c: Conversation, k: string, j: nat)
    requires j < |groups| && groups[j].key == k
    requires forall i :: 0 <= i < j ==> groups[i].key != k
    ensures AddTo(groups, c, k) == groups[j := groups[j].(conversations := groups[j].conversations + [c])]
  {
    if j > 0 {
      AddToExisting(groups[1..], c, k, j - 1);
    }
  }

  lemma {:induction false} AddToNew(groups: seq<DateGroup>, c: Conversation, k: string)
    requires forall i :: 0 <= i < |groups| ==> groups[i].key != k
    ensures AddTo(groups, c, k) == groups + [DateGroup(k, [c])]
  {
    if groups != [] {
      AddToNew(groups[1..], c, k);
    }
  }

  /** Appending a conversation appends it to the bucket of its own label only. */
  lemma WithKeyAppend(cs: seq<Conversation>, c: Conversation, formatDate: int -> string, q: string)
    ensures WithKey(cs + [c], formatDate, q) == WithKey(cs, formatDate, q) + (if formatDate(c.date) == q then [c] else [])
  {
    FilterAppend(cs, [c], KeyIs(formatDate, q));
    assert [c][1..] == [];
  }

  lemma ReferenceStepExisting(cs: seq<Conversation>, c: Conversation, formatDate: int -> string, j: nat)
    requires var ks := Keys(cs, formatDate); j < |ks| && ks[j] == formatDate(c.date)
    ensures var before := Reference(cs, formatDate);
      Reference(cs + [c], formatDate) == before[j := before[j].(conversations := before[j].conversations + [c])]
  {
    var k := formatDate(c.date);
    var ks := Keys(cs, formatDate);
    assert (cs + [c])[..|cs + [c]| - 1] == cs;
    assert Keys(cs + [c], formatDate) == ks;
    var before := Reference(cs, formatDate);
    var after := Reference(cs + [c], formatDate);
    var want := before[j := before[j].(conversations := before[j].conversations + [c])];
    forall i | 0 <= i < |ks| ensures after[i] == want[i] {
      WithKeyAppend(cs, c, formatDate, ks[i]);
    }
  }

  lemma ReferenceStepNew(cs: seq<Conversation>, c: Conversation, formatDate: int -> string)
    requires formatDate(c.date) !in Keys(cs, formatDate)
    ensures Reference(cs + [c], formatDate) == Reference(cs, formatDate) + [DateGroup(formatDate(c.date), [c])]
  {
    var k := formatDate(c.date);
    var ks := Keys(cs, formatDate);
    assert (cs + [c])[..|cs + [c]| - 1] == cs;
    assert Keys(cs + [c], formatDate) == ks + [k];
    var before := Reference(cs, formatDate);
    var after := Reference(cs + [c], formatDate);
    var want := before + [DateGroup(k, [c])];
    forall i | 0 <= i < |ks| ensures after[i] == want[i] {
      WithKeyAppend(cs, c, formatDate, ks[i]);
    }
    forall i | 0 <= i < |cs| ensures !KeyIs(formatDate, k)(cs[i]) {
    }
    FilterNone(cs, KeyIs(formatDate, k));
    WithKeyAppend(cs, c, formatDate, k);
    assert after[|ks|] == want[|ks|];
  }

  /** Processing one more conversation extends the reference grouping by one
      `AddTo` step. */
  lemma ReferenceStep(cs: seq<Conversation>, c: Conversation, formatDate: int -> string)
    ensures Reference(cs + [c], formatDate) == AddTo(Reference(cs, formatDate), c, formatDate(c.date))
  {
    var k := formatDate(c.date);
    var ks := Keys(cs, formatDate);
    var before := Reference(cs, formatDate);
    if k in ks {
      var j :| 0 <= j < |ks| && ks[j] == k;
      AddToExisting(before, c, k, j);
      ReferenceStepExisting(cs, c, formatDate, j);
    } else {
      AddToNew(before, c, k);
      ReferenceStepNew(cs, c, formatDate);
    }
  }

  /** `groupConversationsByDate`, with the formatDate function (`formatDate`:
      "Today", "Yesterday" or the long date) and the ISO-day function given. */
  method GroupByDate(cs: seq<Conversation>, selectedDate: string, isoDay: int -> string, formatDate: int -> string)
    returns (groups: seq<DateGroup>)
    ensures groups == Reference(DateFiltered(cs, selectedDate, isoDay), formatDate)
  {
    var shown := DateFiltered(cs, selectedDate, isoDay);
    groups := [];
    var i := 0;
    while i < |shown|
      invariant 0 <= i <= |shown|
      invariant groups == Reference(shown[..i], formatDate)
    {
      ReferenceStep(shown[..i], shown[i], formatDate);
      assert shown[..i + 1] == shown[..i] + [shown[i]];
      groups := AddTo(groups, shown[i], formatDate(shown[i].date));
      i := i + 1;
    }
    assert shown[..i] == shown;
  }

  /** Every listed conversation lands in exactly one group, the one with its
      formatDate; labels are distinct and no group is empty. */
  lemma GroupsPartition(cs: seq<Conversation>, formatDate: int -> string)
    ensures var groups := Reference(cs, formatDate);
      && (forall i, j :: 0 <= i < j < |groups| ==> groups[i].key != groups[j].key)
      && (forall i :: 0 <= i < |groups| ==> groups[i].conversations != [])
      && (forall c, i :: c in cs && 0 <= i < |groups| ==>
            (c in groups[i].conversations <==> groups[i].key == formatDate(c.date)))
      && (forall c :: c in cs ==> exists i :: 0 <= i < |groups| && groups[i].key == formatDate(c.date))
  {
    var groups := Reference(cs, formatDate);
    var ks := Keys(cs, formatDate);
    forall i | 0 <= i < |groups| ensures groups[i].conversations != [] {
      assert ks[i] in ks;
      var j :| 0 <= j < |cs| && formatDate(cs[j].date) == ks[i];
      assert KeyIs(formatDate, ks[i])(cs[j]);
      FilterMembers(cs, KeyIs(formatDate, ks[i]));
      assert cs[j] in groups[i].conversations;
    }
    forall c, i | c in cs && 0 <= i < |groups|
      ensures c in groups[i].conversations <==> groups[i].key == formatDate(c.date) {
      FilterMembers(cs, KeyIs(formatDate, ks[i]));
      var j :| 0 <= j < |cs| && cs[j] == c;
      if groups[i].key == formatDate(c.date) {
        assert KeyIs(formatDate, ks[i])(cs[j]);
      }
    }
    forall c | c in cs ensures exists i :: 0 <= i < |groups| && groups[i].key == formatDate(c.date) {
      var j :| 0 <= j < |cs| && cs[j] == c;
      assert formatDate(c.date) in ks;
      var i :| 0 <= i < |ks| && ks[i] == formatDate(c.date);
      assert groups[i].key == formatDate(c.date);
    }
  }
}
