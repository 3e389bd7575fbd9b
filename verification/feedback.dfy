/** The feedback form: a one-to-five star rating and a comment, appended to
    the stored feedback list on submit, by a signed-in user or anonymously. */
module Feedback {
  import opened Base
  import opened Storage

  /** The form's state: the chosen rating (0 until a star is clicked), the
      comment text, and whether the thank-you banner is showing. */
  datatype FeedbackForm = FeedbackForm(rating: int, comment: string, showSuccess: bool)

  function Initial(): FeedbackForm
  {
    FeedbackForm(0, "", false)
  }

  const StarCount := 5

  /** Star `star` (numbered from 1) is drawn filled. */
  predicate StarFilled(star: int, rating: int)
  {
    star <= rating
  }

  /** The row of stars, left to right, as filled (true) or outlined. */
  function Stars(rating: int): (r: seq<bool>)
    ensures |r| == StarCount
  {
    seq(StarCount, i => StarFilled(i + 1, rating))
  }

  /** Number of filled stars in a row. */
  function FilledCount(row: seq<bool>): nat
  {
    if row == [] then 0 else FilledCount(row[..|row| - 1]) + (if row[|row| - 1] then 1 else 0)
  }

  function Clamp(x: int, lo: int, hi: int): int
  {
    if x < lo then lo else if x > hi then hi else x
  }

  /** A prefix of `n` stars, for any `n`, fills the first `rating` of them. */
  lemma {:induction false} FilledPrefix(n: nat, rating: int)
    ensures FilledCount(seq(n, i => StarFilled(i + 1, rating))) == Clamp(rating, 0, n)
  {
    if n > 0 {
      var row := seq(n, i => StarFilled(i + 1, rating));
      assert row[..n - 1] == seq(n - 1, i => StarFilled(i + 1, rating));
      FilledPrefix(n - 1, rating);
    }
  }

  /** The filled stars are a prefix of the row, and there are as many as the
      rating says, bounded by the row: none for a rating of 0 or less, all
      five for 5 or more. */
  lemma StarsShowRating(rating: int)
    ensures forall i, j :: 0 <= i < j < StarCount && Stars(rating)[j] ==> Stars(rating)[i]
    ensures FilledCount(Stars(rating)) == Clamp(rating, 0, StarCount)
  {
    FilledPrefix(StarCount, rating);
  }

  /** Clicking star `star`: the rating becomes that star's number, so exactly
      the stars up to and including it are filled. */
  function ClickStar(f: FeedbackForm, star: int): (r: FeedbackForm)
    requires 1 <= star <= StarCount
    ensures r.comment == f.comment && r.showSuccess == f.showSuccess
    ensures forall i :: 0 <= i < StarCount ==> (Stars(r.rating)[i] <==> i < star)
  {
    f.(rating := star)
  }

  /** Typing in the comment box. */
  function TypeComment(f: FeedbackForm, text: string): (r: FeedbackForm)
    ensures r.rating == f.rating && r.comment == text && r.showSuccess == f.showSuccess
  {
    f.(comment := text)
  }

  datatype Submitted = Submitted(form: FeedbackForm, store: Store)

  /** The stored entry: the signed-in user's email and name, each falling back
      to the anonymous default when there is no user or the field is empty. */
  function Entry(f: FeedbackForm, store: Store, id: string, now: int): (e: FeedbackEntry)
    ensures store.currentUser.None? ==> e.userId == "anonymous" && e.userName == "Anonymous User"
    ensures store.currentUser.Some? && store.currentUser.value.email != "" ==> e.userId == store.currentUser.value.email
    ensures store.currentUser.Some? && store.currentUser.value.fullname != "" ==> e.userName == store.currentUser.value.fullname
    ensures e.userId != "" && e.userName != ""
    ensures e.id == id && e.rating == f.rating && e.comment == f.comment && e.date == now
  {
    var email := if store.currentUser.Some? then store.currentUser.value.email else "";
    var name := if store.currentUser.Some? then store.currentUser.value.fullname else "";
    FeedbackEntry(id, OrElse(email, "anonymous"), OrElse(name, "Anonymous User"), f.rating, f.comment, now)
  }

  /** Submitting the form. The comment box is a required field, so the browser
      does not submit while it is empty. Otherwise exactly one entry is
      appended after the stored ones, with the rating as it stands (no range
      check, so 0 when no star was clicked); nothing else in storage changes;
      the form is reset and the banner shown. */
  function Submit(f: FeedbackForm, store: Store, id: string, now: int): (r: Submitted)
    ensures f.comment == "" ==> r == Submitted(f, store)
    ensures f.comment != "" ==>
      && |r.store.feedbacks| == |store.feedbacks| + 1
      && r.store.feedbacks[..|store.feedbacks|] == store.feedbacks
      && r.store.feedbacks[|store.feedbacks|] == Entry(f, store, id, now)
      && r.store == store.(feedbacks := r.store.feedbacks)
      && r.form.rating == 0 && r.form.comment == "" && r.form.showSuccess
      && forall i :: 0 <= i < StarCount ==> !Stars(r.form.rating)[i]
  {
    if f.comment == "" then Submitted(f, store)
    else
      var feedbacks := store.feedbacks + [Entry(f, store, id, now)];
      assert feedbacks[..|store.feedbacks|] == store.feedbacks;
      Submitted(FeedbackForm(0, "", true), store.(feedbacks := feedbacks))
  }
}
