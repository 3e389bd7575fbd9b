/** The administrator's dashboard: who may open it, and the statistics for
    the selected period (new and total users and chats, the period's
    feedback and its average rating), plus the star rows and the "Recent
    Feedback" list. */
module AdminDashboard {
  import opened Base
  import opened Storage

  /** The three stored lists the dashboard reads. */
  datatype Dashboard = Dashboard(
    feedbacks: seq<FeedbackEntry>,
    users: seq<User>,
    chats: seq<Conversation>)

  /** The mount effect: without a signed-in administrator the view redirects;
      otherwise it loads the stored lists as they are. */
  function Load(store: Store): (r: Guarded<Dashboard>)
    ensures r.Redirected? <==> store.currentUser.None? || !store.currentUser.value.isAdmin
    ensures r.Shown? ==> r.value == Dashboard(store.feedbacks, store.users, store.conversations)
  {
    match store.currentUser
    case None => Redirected
    case Some(u) => if !u.isAdmin then Redirected else Shown(Dashboard(store.feedbacks, store.users, store.conversations))
  }

  /** `new Date(d) >= periodStart`; a missing date is an invalid date, which
      compares false. */
  function DatedSince<T>(date: T -> Option<int>, periodStart: int): T -> bool
  {
    (x: T) => date(x).Some? && date(x).value >= periodStart
  }

  /** The records dated on or after `periodStart`, in stored order. */
  function Since<T(!new)>(xs: seq<T>, date: T -> Option<int>, periodStart: int): (r: seq<T>)
    ensures |r| <= |xs|
    ensures forall x ::
      multiset(r)[x] == (if date(x).Some? && date(x).value >= periodStart then multiset(xs)[x] else 0)
  {
    var r := Filter(xs, DatedSince(date, periodStart));
    forall x ensures multiset(r)[x] ==
      (if date(x).Some? && date(x).value >= periodStart then multiset(xs)[x] else 0) {
      FilterCount(xs, DatedSince(date, periodStart), x);
    }
    r
  }

  function JoinDate(u: User): Option<int>
  {
    u.joinDate
  }

  function ChatDate(c: Conversation): Option<int>
  {
    Some(c.date)
  }

  function FeedbackDate(f: FeedbackEntry): Option<int>
  {
    Some(f.date)
  }

  function Rating(f: FeedbackEntry): int
  {
    f.rating
  }

  datatype Stats = Stats(
    newUsers: nat,
    totalUsers: nat,
    newChats: nat,
    totalChats: nat,
    averageRating: real,
    totalFeedbacks: nat)

  /** `getStats`: the period counts against the unfiltered totals, and the
      exact mean rating of the period's feedback (0 when there is none).
      "Total feedbacks" counts the period's feedback only. */
  function GetStats(d: Dashboard, periodStart: int): (r: Stats)
    ensures r.totalUsers == |d.users| && r.totalChats == |d.chats|
    ensures r.newUsers == |Since(d.users, JoinDate, periodStart)| <= r.totalUsers
    ensures r.newChats == |Since(d.chats, ChatDate, periodStart)| <= r.totalChats
    ensures var period := Since(d.feedbacks, FeedbackDate, periodStart);
      && r.totalFeedbacks == |period| <= |d.feedbacks|
      && (period == [] ==> r.averageRating == 0.0)
      && (period != [] ==>
            && r.averageRating == Mean(period, Rating)
            && MinOf(period, Rating) as real <= r.averageRating <= MaxOf(period, Rating) as real)
  {
    var period := Since(d.feedbacks, FeedbackDate, periodStart);
    Stats(
      |Since(d.users, JoinDate, periodStart)|,
      |d.users|,
      |Since(d.chats, ChatDate, periodStart)|,
      |d.chats|,
      if |period| > 0 then Mean(period, Rating) else 0.0,
      |period|)
  }

  /** A user without a join date is never counted as new, whatever the period. */
  lemma UndatedUsersAreNeverNew(users: seq<User>, periodStart: int)
    requires forall i :: 0 <= i < |users| ==> users[i].joinDate.None?
    ensures Since(users, JoinDate, periodStart) == []
  {
    forall i | 0 <= i < |users| ensures !DatedSince(JoinDate, periodStart)(users[i]) {
      assert JoinDate(users[i]).None?;
    }
    FilterNone(users, DatedSince(JoinDate, periodStart));
  }

  /** Star `i` (numbered from 0) of a feedback's row is drawn filled. */
  predicate StarFilled(i: int, rating: int)
  {
    i < rating
  }

  const StarCount := 5

  function Stars(rating: int): (r: seq<bool>)
    ensures |r| == StarCount
  {
    seq(StarCount, i => StarFilled(i, rating))
  }

  const RecentCount := 5

  /** `feedbacks.slice(0, 5)`: the first five stored entries. */
  function Recent(d: Dashboard): (r: seq<FeedbackEntry>)
    ensures |r| == if |d.feedbacks| < RecentCount then |d.feedbacks| else RecentCount
    ensures r == d.feedbacks[..|r|]
  {
    Take(d.feedbacks, RecentCount)
  }
}
