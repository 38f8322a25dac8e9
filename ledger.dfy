/** The rows of the three tables and the pure computations lib/database.ts
    performs on them: the per-creator analytics fold of
    `getCreatorTipAnalytics` and the `timestamp` descending order of
    `getCreatorTips`. Amounts are reals, timestamps milliseconds. */
module Ledger {
  import opened Common

  /** Row identifiers, which the store generates on insert. */
  type Id = nat

  datatype User = User(
    userId: Id,
    baseWalletAddress: string,
    farcasterId: Option<string>,
    createdAt: int)

  datatype CreatorProfile = CreatorProfile(
    creatorId: Id,
    userId: Id,
    displayName: string,
    bio: Option<string>,
    vanityUrl: string,
    createdAt: int)

  datatype Tip = Tip(
    tipId: Id,
    senderAddress: string,
    receiverAddress: string,
    amount: real,
    currency: string,
    message: Option<string>,
    timestamp: int,
    transactionHash: string)

  /** A tip as submitted for insertion: a `Tip` without its `tipId`. */
  datatype TipInput = TipInput(
    senderAddress: string,
    receiverAddress: string,
    amount: real,
    currency: string,
    message: Option<string>,
    timestamp: int,
    transactionHash: string)
  {
    function WithId(id: Id): (t: Tip)
      ensures t.tipId == id && t.senderAddress == senderAddress
      ensures t.receiverAddress == receiverAddress && t.amount == amount
      ensures t.currency == currency && t.message == message
      ensures t.timestamp == timestamp && t.transactionHash == transactionHash
    {
      Tip(id, senderAddress, receiverAddress, amount, currency, message, timestamp, transactionHash)
    }
  }

  /** The object `getCreatorTipAnalytics` returns. */
  datatype TipAnalytics = TipAnalytics(
    totalTips: nat,
    totalAmount: real,
    uniqueTippers: nat,
    averagePerTip: real,
    earliestTip: Option<int>,
    latestTip: Option<int>,
    daysActive: nat,
    averagePerDay: real)

  // ----- the pieces of the fold -----

  /** `tips.reduce((sum, tip) => sum + tip.amount, 0)`, added left to right. */
  function SumAmounts(tips: seq<Tip>): real {
    if tips == [] then 0.0 else SumAmounts(tips[..|tips| - 1]) + tips[|tips| - 1].amount
  }

  /** `new Set(tips.map(tip => tip.senderAddress))`. */
  function Senders(tips: seq<Tip>): (s: set<string>)
    ensures forall i :: 0 <= i < |tips| ==> tips[i].senderAddress in s
    ensures forall a :: a in s ==> exists i :: 0 <= i < |tips| && tips[i].senderAddress == a
  {
    if tips == [] then {}
    else Senders(tips[..|tips| - 1]) + {tips[|tips| - 1].senderAddress}
  }

  /** `Math.min(...timestamps)` of a non-empty list. */
  function EarliestTimestamp(tips: seq<Tip>): (m: int)
    requires |tips| > 0
    ensures forall i :: 0 <= i < |tips| ==> m <= tips[i].timestamp
    ensures exists i :: 0 <= i < |tips| && m == tips[i].timestamp
  {
    if |tips| == 1 then tips[0].timestamp
    else
      var rest := EarliestTimestamp(tips[1..]);
      assert forall i :: 1 <= i < |tips| ==> tips[i] == tips[1..][i - 1];
      if tips[0].timestamp <= rest then tips[0].timestamp else rest
  }

  /** `Math.max(...timestamps)` of a non-empty list. */
  function LatestTimestamp(tips: seq<Tip>): (m: int)
    requires |tips| > 0
    ensures forall i :: 0 <= i < |tips| ==> tips[i].timestamp <= m
    ensures exists i :: 0 <= i < |tips| && m == tips[i].timestamp
  {
    if |tips| == 1 then tips[0].timestamp
    else
      var rest := LatestTimestamp(tips[1..]);
      assert forall i :: 1 <= i < |tips| ==> tips[i] == tips[1..][i - 1];
      if tips[0].timestamp >= rest then tips[0].timestamp else rest
  }

  /** `Math.ceil(a / b)` for a positive divisor. */
  function CeilDiv(a: int, b: int): (q: int)
    requires b > 0
    ensures (q - 1) * b < a <= q * b
    ensures a >= 0 ==> q >= 0
  {
    if a % b == 0 then a / b else a / b + 1
  }

  /** `Math.ceil((latest - earliest) / MillisPerDay) + 1`. */
  function DaysBetween(earliest: int, latest: int): (d: nat)
    requires earliest <= latest
    ensures d >= 1
    ensures (d - 2) * MillisPerDay < latest - earliest <= (d - 1) * MillisPerDay
  {
    var q := CeilDiv(latest - earliest, MillisPerDay);
    assert (q - 1) * MillisPerDay == ((q + 1) - 2) * MillisPerDay;
    q + 1
  }

  /** The analytics `getCreatorTipAnalytics` derives from the receiver's rows. */
  function Summarize(tips: seq<Tip>): TipAnalytics {
    var totalTips := |tips|;
    var totalAmount := SumAmounts(tips);
    var earliest: Option<int> := if |tips| > 0 then Some(EarliestTimestamp(tips)) else None;
    var latest: Option<int> := if |tips| > 0 then Some(LatestTimestamp(tips)) else None;
    var daysActive: nat :=
      if earliest.Some? && latest.Some? then DaysBetween(earliest.value, latest.value) else 0;
    TipAnalytics(
      totalTips,
      totalAmount,
      |Senders(tips)|,
      Average(totalAmount, totalTips),
      earliest,
      latest,
      daysActive,
      Average(totalAmount, daysActive))
  }

  // ----- what the fold promises -----

  lemma {:induction false} SendersBound(tips: seq<Tip>)
    ensures |Senders(tips)| <= |tips|
  {
    if tips != [] {
      SendersBound(tips[..|tips| - 1]);
    }
  }

  /** `totalTips` counts the rows, `totalAmount` adds their amounts, and
      `uniqueTippers` counts distinct senders: at most `totalTips`, and
      positive exactly when there is a tip. */
  lemma CountsOfSummary(tips: seq<Tip>)
    ensures Summarize(tips).totalTips == |tips|
    ensures Summarize(tips).totalAmount == SumAmounts(tips)
    ensures Summarize(tips).uniqueTippers == |Senders(tips)|
    ensures Summarize(tips).uniqueTippers <= Summarize(tips).totalTips
    ensures Summarize(tips).uniqueTippers > 0 <==> |tips| > 0
  {
    SendersBound(tips);
    if |tips| > 0 {
      assert tips[0].senderAddress in Senders(tips);
    }
  }

  /** With no rows, both timestamps are null and every figure is zero. */
  lemma EmptySummary()
    ensures Summarize([]) == TipAnalytics(0, 0.0, 0, 0.0, None, None, 0, 0.0)
  {
  }

  /** With rows, `earliestTip` and `latestTip` are the least and greatest
      timestamps, and `daysActive` is the number of started 24-hour periods
      between them, plus one. */
  lemma NonEmptySummary(tips: seq<Tip>)
    requires |tips| > 0
    ensures var r := Summarize(tips);
      && r.earliestTip.Some? && r.latestTip.Some?
      && r.earliestTip.value <= r.latestTip.value
      && (forall i :: 0 <= i < |tips| ==> r.earliestTip.value <= tips[i].timestamp <= r.latestTip.value)
      && r.daysActive >= 1
      && (r.daysActive - 2) * MillisPerDay < r.latestTip.value - r.earliestTip.value
      && r.latestTip.value - r.earliestTip.value <= (r.daysActive - 1) * MillisPerDay
  {
  }

  /** Both averages are guarded: each is the total divided by its count,
      or zero when that count is zero; and there are active days exactly
      when there are tips. */
  lemma AveragesOfSummary(tips: seq<Tip>)
    ensures var r := Summarize(tips);
      && r.averagePerTip == Average(r.totalAmount, r.totalTips)
      && r.averagePerDay == Average(r.totalAmount, r.daysActive)
      && (r.daysActive == 0 <==> r.totalTips == 0)
  {
  }

  // ----- the rows' order does not matter -----

  lemma {:induction false} SumAmountsWithout(tips: seq<Tip>, k: nat)
    requires k < |tips|
    ensures SumAmounts(tips) == SumAmounts(tips[..k] + tips[k + 1..]) + tips[k].amount
    decreases |tips|
  {
    var init := tips[..|tips| - 1];
    if k == |tips| - 1 {
      assert tips[..k] + tips[k + 1..] == init;
    } else {
      SumAmountsWithout(init, k);
      var rest := init[..k] + init[k + 1..];
      assert tips[..k] + tips[k + 1..] == rest + [tips[|tips| - 1]];
      assert (rest + [tips[|tips| - 1]])[..|rest|] == rest;
    }
  }

  lemma {:induction false} SumAmountsPermutation(a: seq<Tip>, b: seq<Tip>)
    requires multiset(a) == multiset(b)
    ensures SumAmounts(a) == SumAmounts(b)
    decreases |a|
  {
    if a != [] {
      var x := a[|a| - 1];
      var init := a[..|a| - 1];
      assert x in multiset(b);
      var k :| 0 <= k < |b| && b[k] == x;
      var rest := b[..k] + b[k + 1..];
      RemoveLast(a);
      RemoveAt(b, k);
      Cancel(multiset(init), multiset(rest), x);
      SumAmountsPermutation(init, rest);
      SumAmountsWithout(b, k);
    } else {
      assert |b| == |multiset(b)| == 0;
    }
  }

  lemma RemoveLast(a: seq<Tip>)
    requires a != []
    ensures multiset(a) == multiset(a[..|a| - 1]) + multiset{a[|a| - 1]}
  {
    assert a == a[..|a| - 1] + [a[|a| - 1]];
  }

  lemma RemoveAt(b: seq<Tip>, k: nat)
    requires k < |b|
    ensures multiset(b) == multiset(b[..k] + b[k + 1..]) + multiset{b[k]}
  {
    assert b == b[..k] + [b[k]] + b[k + 1..];
    assert multiset(b) == multiset(b[..k]) + multiset([b[k]]) + multiset(b[k + 1..]);
  }

  lemma Cancel(m: multiset<Tip>, n: multiset<Tip>, x: Tip)
    requires m + multiset{x} == n + multiset{x}
    ensures m == n
  {
    forall y ensures m[y] == n[y] {
      assert (m + multiset{x})[y] == (n + multiset{x})[y];
    }
  }

  lemma SendersPermutation(a: seq<Tip>, b: seq<Tip>)
    requires multiset(a) == multiset(b)
    ensures Senders(a) == Senders(b)
  {
    forall s | s in Senders(a) ensures s in Senders(b) {
      var i :| 0 <= i < |a| && a[i].senderAddress == s;
      assert a[i] in multiset(b);
      var j :| 0 <= j < |b| && b[j] == a[i];
    }
    forall s | s in Senders(b) ensures s in Senders(a) {
      var j :| 0 <= j < |b| && b[j].senderAddress == s;
      assert b[j] in multiset(a);
      var i :| 0 <= i < |a| && a[i] == b[j];
    }
  }

  lemma TimestampsPermutation(a: seq<Tip>, b: seq<Tip>)
    requires multiset(a) == multiset(b) && |a| > 0
    ensures |b| > 0
    ensures EarliestTimestamp(a) == EarliestTimestamp(b)
    ensures LatestTimestamp(a) == LatestTimestamp(b)
  {
    assert |b| == |multiset(b)| == |multiset(a)| == |a|;
    var i :| 0 <= i < |a| && EarliestTimestamp(a) == a[i].timestamp;
    assert a[i] in multiset(b);
    var j :| 0 <= j < |b| && EarliestTimestamp(b) == b[j].timestamp;
    assert b[j] in multiset(a);
    var k :| 0 <= k < |a| && LatestTimestamp(a) == a[k].timestamp;
    assert a[k] in multiset(b);
    var l :| 0 <= l < |b| && LatestTimestamp(b) == b[l].timestamp;
    assert b[l] in multiset(a);
  }

  /** The store returns the receiver's rows in no particular order; the
      analytics depend only on which rows there are. */
  lemma SummaryIgnoresOrder(a: seq<Tip>, b: seq<Tip>)
    requires multiset(a) == multiset(b)
    ensures Summarize(a) == Summarize(b)
  {
    assert |a| == |multiset(a)| == |multiset(b)| == |b|;
    SumAmountsPermutation(a, b);
    SendersPermutation(a, b);
    if |a| > 0 {
      TimestampsPermutation(a, b);
    }
  }

  // ----- the store's order -----

  /** `.order('timestamp', { ascending: false })`. */
  ghost predicate NewestFirst(tips: seq<Tip>) {
    forall i, j :: 0 <= i < j < |tips| ==> tips[i].timestamp >= tips[j].timestamp
  }

  function InsertNewestFirst(t: Tip, tips: seq<Tip>): (r: seq<Tip>)
    requires NewestFirst(tips)
    ensures NewestFirst(r)
    ensures multiset(r) == multiset(tips) + multiset{t}
    ensures |r| == |tips| + 1
  {
    if tips == [] || tips[0].timestamp <= t.timestamp then [t] + tips
    else
      var rest := InsertNewestFirst(t, tips[1..]);
      assert tips == [tips[0]] + tips[1..];
      forall k | 0 <= k < |rest| ensures tips[0].timestamp >= rest[k].timestamp {
        assert rest[k] in multiset(rest);
        assert rest[k] in tips[1..] || rest[k] == t;
      }
      [tips[0]] + rest
  }

  /** The rows reordered so that newer tips come first; rows with equal
      timestamps may come in any order, and this is one of them. */
  function SortNewestFirst(tips: seq<Tip>): (r: seq<Tip>)
    ensures NewestFirst(r)
    ensures multiset(r) == multiset(tips)
  {
    if tips == [] then []
    else
      assert tips == [tips[0]] + tips[1..];
      InsertNewestFirst(tips[0], SortNewestFirst(tips[1..]))
  }
}
