/** The Users page: user totals, users with bids, the rounded average bid
    count and the Active/Inactive badge of each row. */
module UsersPage {

  import opened Types
  import opened JsNumber

  /** `users.filter(user => user.bids.length > 0)`, in list order. */
  function WithBids(users: seq<UserRecord>): (r: seq<UserRecord>)
    ensures |r| <= |users|
    ensures forall u :: u in r <==> u in users && |u.bids| > 0
  {
    if users == [] then []
    else if |users[0].bids| > 0 then [users[0]] + WithBids(users[1..])
    else WithBids(users[1..])
  }

  /** `users.length`: never less than the users with bids. */
  function TotalUsers(users: seq<UserRecord>): (n: nat)
    ensures |WithBids(users)| <= n
    ensures n == 0 <==> users == []
  {
    |users|
  }

  function ActiveUsers(users: seq<UserRecord>): (n: nat)
    ensures n <= TotalUsers(users)
    ensures n == 0 <==> forall i :: 0 <= i < |users| ==> users[i].bids == []
  {
    var r := WithBids(users);
    if r == [] then
      assert forall i :: 0 <= i < |users| ==> users[i] !in r;
      0
    else
      assert r[0] in users;
      |r|
  }

  /** Sum of every user's bid count. */
  function TotalBidCount(users: seq<UserRecord>): nat
  {
    if users == [] then 0 else |users[0].bids| + TotalBidCount(users[1..])
  }

  function MaxBidCount(users: seq<UserRecord>): (m: nat)
    ensures forall i :: 0 <= i < |users| ==> |users[i].bids| <= m
    ensures users != [] ==> exists i :: 0 <= i < |users| && m == |users[i].bids|
  {
    if users == [] then 0
    else
      var rest := MaxBidCount(users[1..]);
      assert forall i :: 1 <= i < |users| ==> users[i] == users[1..][i - 1];
      if |users[0].bids| >= rest then |users[0].bids| else rest
  }

  /** The sum of the bid counts is zero exactly when no user has a bid, so
      it is zero exactly when the Active Users card is. */
  lemma {:induction false} TotalBidCountZero(users: seq<UserRecord>)
    ensures TotalBidCount(users) == 0 <==> forall i :: 0 <= i < |users| ==> users[i].bids == []
    ensures TotalBidCount(users) == 0 <==> ActiveUsers(users) == 0
  {
    if users != [] {
      assert forall i :: 1 <= i < |users| ==> users[1..][i - 1] == users[i];
      TotalBidCountZero(users[1..]);
    }
  }

  lemma {:induction false} TotalBidCountBounded(users: seq<UserRecord>, hi: nat)
    requires forall i :: 0 <= i < |users| ==> |users[i].bids| <= hi
    ensures TotalBidCount(users) <= |users| * hi
  {
    if users != [] {
      assert forall i :: 0 <= i < |users[1..]| ==> users[1..][i] == users[i + 1];
      TotalBidCountBounded(users[1..], hi);
    }
  }

  /** `Math.round(sum / n)` for natural numbers: the nearest integer to
      sum/n, halves rounded up. */
  function RoundedMean(sum: nat, n: nat): (r: nat)
    requires n > 0
    ensures 2 * n * r <= 2 * sum + n < 2 * n * (r + 1)
  {
    var d := 2 * n;
    var q := (2 * sum + n) / d;
    assert (2 * sum + n) == d * q + (2 * sum + n) % d;
    q
  }

  /** `Math.round(totalBidCount / totalUsers)`: NaN when there are no users
      (0 / 0), otherwise the rounded mean over ALL users, not only the users
      with bids the card's caption names. */
  function AverageBids(users: seq<UserRecord>): (avg: Number)
    ensures avg == NaN <==> users == []
    ensures users != [] ==> avg.Finite? && avg.value == RoundedMean(TotalBidCount(users), |users|) as real
  {
    match Divide(TotalBidCount(users) as real, |users| as real)
    case Finite(_) => Finite(RoundedMean(TotalBidCount(users), |users|) as real)
    case q => q
  }

  /** The rounded average never exceeds the largest per-user bid count. */
  lemma AverageBidsAtMostMax(users: seq<UserRecord>)
    requires users != []
    ensures 0.0 <= AverageBids(users).value <= MaxBidCount(users) as real
  {
    var n, s, m := |users|, TotalBidCount(users), MaxBidCount(users);
    TotalBidCountBounded(users, m);
    var r := RoundedMean(s, n);
    RoundedMeanBound(n, s, r, m);
    assert AverageBids(users).value == r as real;
  }

  lemma RoundedMeanBound(n: nat, s: nat, r: nat, m: nat)
    requires n > 0 && s <= n * m && 2 * n * r <= 2 * s + n
    ensures r <= m
  {
    if r > m {
      MulMonotone(2 * n, m + 1, r);
    }
  }

  lemma MulMonotone(a: nat, b: nat, c: nat)
    requires b <= c
    ensures a * b <= a * c
  {
  }

  /** One user with two bids and one with none: the page shows an average of
      1, while the mean over users with bids is 2. */
  lemma AverageCountsInactiveUsers(a: UserRecord, b: UserRecord)
    requires |a.bids| == 2 && b.bids == []
    ensures AverageBids([a, b]) == Finite(1.0)
    ensures ActiveUsers([a, b]) == 1
  {
    assert [a, b][1..] == [b];
    assert [b][1..] == [];
    assert TotalBidCount([b]) == 0;
    assert TotalBidCount([a, b]) == 2;
    assert WithBids([a, b]) == [a];
  }

  /** With no users the card shows NaN. */
  lemma NoUsersAverageIsNaN()
    ensures AverageBids([]) == NaN
  {
  }

  /** The guarded card: 0 with no users, the rounded mean otherwise. */
  function AverageBidsOrZero(users: seq<UserRecord>): (avg: nat)
    ensures users == [] ==> avg == 0
    ensures users != [] ==> avg <= MaxBidCount(users) && AverageBids(users) == Finite(avg as real)
  {
    if users == [] then 0
    else
      AverageBidsAtMostMax(users);
      RoundedMean(TotalBidCount(users), |users|)
  }

  datatype UserBadge = ActiveBadge | InactiveBadge

  function Badge(u: UserRecord): (b: UserBadge)
    ensures b == ActiveBadge <==> u.bids != []
  {
    if |u.bids| > 0 then ActiveBadge else InactiveBadge
  }

  /** The badge column, one per row in list order. */
  function Badges(users: seq<UserRecord>): (col: seq<UserBadge>)
    ensures |col| == |users|
    ensures forall i :: 0 <= i < |users| ==> col[i] == Badge(users[i])
  {
    if users == [] then [] else [Badge(users[0])] + Badges(users[1..])
  }

  function CountActiveBadges(col: seq<UserBadge>): nat
  {
    if col == [] then 0 else (if col[0] == ActiveBadge then 1 else 0) + CountActiveBadges(col[1..])
  }

  /** The number of Active badges equals the "Active Users" card. */
  lemma {:induction false} ActiveBadgesMatchActiveUsers(users: seq<UserRecord>)
    ensures CountActiveBadges(Badges(users)) == ActiveUsers(users)
  {
    if users != [] {
      assert Badges(users)[1..] == Badges(users[1..]);
      ActiveBadgesMatchActiveUsers(users[1..]);
    }
  }
}
