/** What the statistics over an event list are: per branch a count of leads,
    a count of payments and points, and a total that is their element-wise sum. */
module Aggregation {
  import opened Scoring
  import opened Events

  /** One statistics record, as the page's { leads, payments, points } object. */
  datatype Stats = Stats(leads: int, payments: int, points: int)

  /** A fresh record { leads: 0, payments: 0, points: 0 }, as the page
      writes it when it starts and whenever it recomputes. */
  method NewStats() returns (z: Stats)
    ensures z.leads == 0 && z.payments == 0 && z.points == 0
  {
    z := Stats(0, 0, 0);
  }

  /** Element-wise sum of two records. */
  function Plus(a: Stats, b: Stats): Stats {
    Stats(a.leads + b.leads, a.payments + b.payments, a.points + b.points)
  }

  /** Branch b's running counters after one more event of the walk: a lead of
      that branch counts one lead, a payment of that branch one payment and its
      points; an event of another branch or of another type changes nothing. */
  function Step(t: Stats, e: Event, b: Branch): (r: Stats)
    ensures r.leads == t.leads + 1 <==> e.branch == b && e.kind == Lead
    ensures r.payments == t.payments + 1 <==> e.branch == b && e.kind == Payment
    ensures t.leads <= r.leads <= t.leads + 1 && t.payments <= r.payments <= t.payments + 1
    ensures r.points == t.points + (if r.payments == t.payments then 0 else CalculatePaymentPoints(e.amount))
  {
    if e.branch != b then t
    else if e.kind == Lead then t.(leads := t.leads + 1)
    else if e.kind == Payment then t.(payments := t.payments + 1, points := t.points + CalculatePaymentPoints(e.amount))
    else t
  }

  /** Branch b's counters after walking s from zero, before the lead bonus:
      at most one lead or payment per event, and between 1 and 25 points per
      payment. */
  function Tally(s: seq<Event>, b: Branch): (r: Stats)
    ensures 0 <= r.leads && 0 <= r.payments && r.leads + r.payments <= |s|
    ensures r.payments <= r.points <= 25 * r.payments
  {
    if s == [] then Stats(0, 0, 0)
    else Step(Tally(s[..|s| - 1], b), s[|s| - 1], b)
  }

  /** Branch b's final record: the walk's counters plus the lead bonus, added once. */
  function BranchStats(s: seq<Event>, b: Branch): (r: Stats)
    ensures r.leads == Tally(s, b).leads && r.payments == Tally(s, b).payments
    ensures r.points == Tally(s, b).points + (if r.leads >= 4 then 1 else 0)
  {
    var t := Tally(s, b);
    t.(points := t.points + CalculateLeadPoints(t.leads))
  }

  /** The three records the page shows. */
  datatype Snapshot = Snapshot(moscow: Stats, west: Stats, total: Stats)

  /** The statistics of an event list: both branches, and the total as their
      field-by-field sum. */
  function Aggregate(s: seq<Event>): (r: Snapshot)
    ensures r.moscow == BranchStats(s, Moscow) && r.west == BranchStats(s, West)
    ensures r.total.leads == r.moscow.leads + r.west.leads
    ensures r.total.payments == r.moscow.payments + r.west.payments
    ensures r.total.points == r.moscow.points + r.west.points
  {
    var m := BranchStats(s, Moscow);
    var w := BranchStats(s, West);
    Snapshot(m, w, Stats(m.leads + w.leads, m.payments + w.payments, m.points + w.points))
  }

  /** A branch's final points lie between its payment count and 25 points per
      payment, plus the lead bonus. */
  lemma BranchStatsBounds(s: seq<Event>, b: Branch)
    ensures var r := BranchStats(s, b);
      0 <= r.leads && 0 <= r.payments && r.leads + r.payments <= |s| &&
      r.payments + CalculateLeadPoints(r.leads) <= r.points <= 25 * r.payments + CalculateLeadPoints(r.leads)
  {
  }

  /** Sum of the payment points of every event in s. */
  function PaymentPointsSum(s: seq<Event>): (r: int)
    ensures |s| <= r <= 25 * |s|
  {
    if s == [] then 0
    else PaymentPointsSum(s[..|s| - 1]) + CalculatePaymentPoints(s[|s| - 1].amount)
  }

  /** The walk counts exactly the branch's leads and payments, and its points
      are the payment points of exactly the branch's payments. */
  lemma {:induction false} TallyCountsMatching(s: seq<Event>, b: Branch)
    ensures Tally(s, b).leads == |Matching(s, b, Lead)|
    ensures Tally(s, b).payments == |Matching(s, b, Payment)|
    ensures Tally(s, b).points == PaymentPointsSum(Matching(s, b, Payment))
  {
    if s != [] {
      var n := |s| - 1;
      var e := s[n];
      TallyCountsMatching(s[..n], b);
      var p := Matching(s[..n], b, Payment);
      if e.branch == b && e.kind == Payment {
        assert Matching(s, b, Payment) == p + [e];
        assert (p + [e])[..|p + [e]| - 1] == p;
      } else {
        assert Matching(s, b, Payment) == p;
      }
    }
  }

  /** One more step of the walk over a prefix of s. */
  lemma TallyStep(s: seq<Event>, i: nat, b: Branch)
    requires i < |s|
    ensures Tally(s[..i + 1], b) == Step(Tally(s[..i], b), s[i], b)
  {
    assert s[..i + 1][..i] == s[..i];
  }

  /** A step adds to the counters what it adds to zero counters. */
  lemma StepPlus(t: Stats, u: Stats, e: Event, b: Branch)
    ensures Step(Plus(t, u), e, b) == Plus(t, Step(u, e, b))
  {
  }

  /** The walk's counters over a concatenation are the sums of the parts'. */
  lemma {:induction false} TallyConcat(s: seq<Event>, t: seq<Event>, b: Branch)
    ensures Tally(s + t, b) == Plus(Tally(s, b), Tally(t, b))
    decreases |t|
  {
    if t == [] {
      assert s + t == s;
    } else {
      var n := |t| - 1;
      LastOfConcat(s, t);
      TallyConcat(s, t[..n], b);
      StepPlus(Tally(s, b), Tally(t[..n], b), t[n], b);
    }
  }

  /** One occurrence of the same event can be taken off both sides of a multiset equation. */
  lemma CancelOne(m1: multiset<Event>, m2: multiset<Event>, x: Event)
    requires m1 + multiset{x} == m2 + multiset{x}
    ensures m1 == m2
  {
    forall y ensures m1[y] == m2[y] {
      assert (m1 + multiset{x})[y] == (m2 + multiset{x})[y];
    }
  }

  /** Where the last event of s stands in a reordering t of s, and what is
      left of t around it. */
  lemma SplitAtLast(s: seq<Event>, t: seq<Event>) returns (before: seq<Event>, after: seq<Event>)
    requires s != [] && multiset(s) == multiset(t)
    ensures t == before + [s[|s| - 1]] + after
    ensures multiset(s[..|s| - 1]) == multiset(before + after)
  {
    var n := |s| - 1;
    var x := s[n];
    assert s == s[..n] + [x];
    assert multiset(s) == multiset(s[..n]) + multiset{x};
    assert x in multiset(t);
    var j :| 0 <= j < |t| && t[j] == x;
    before, after := t[..j], t[j + 1..];
    assert t == before + [x] + after;
    assert multiset(t) == multiset(before + after) + multiset{x};
    CancelOne(multiset(s[..n]), multiset(before + after), x);
  }

  /** Moving one event from the middle of a list to its end leaves the walk's counters unchanged. */
  lemma TallyMoveToEnd(before: seq<Event>, x: Event, after: seq<Event>, b: Branch)
    ensures Tally(before + [x] + after, b) == Tally(before + after + [x], b)
  {
    TallyConcat(before + [x], after, b);
    TallyConcat(before, [x], b);
    TallyConcat(before, after, b);
    TallyConcat(before + after, [x], b);
  }

  /** The walk's counters depend only on the multiset of events. */
  lemma {:induction false} TallyPermutation(s: seq<Event>, t: seq<Event>, b: Branch)
    requires multiset(s) == multiset(t)
    ensures Tally(s, b) == Tally(t, b)
    decreases |s|
  {
    if s == [] {
      assert |t| == |multiset(t)| == 0;
    } else {
      var n := |s| - 1;
      var before, after := SplitAtLast(s, t);
      TallyPermutation(s[..n], before + after, b);
      TallyMoveToEnd(before, s[n], after, b);
      LastOfConcat(before + after, [s[n]]);
      assert s == s[..n] + [s[n]];
    }
  }

  /** Reordering the event list leaves every statistic unchanged. */
  lemma AggregatePermutation(s: seq<Event>, t: seq<Event>)
    requires multiset(s) == multiset(t)
    ensures Aggregate(s) == Aggregate(t)
  {
    TallyPermutation(s, t, Moscow);
    TallyPermutation(s, t, West);
  }

  /** An event of another branch or of another type, wherever it stands, changes nothing. */
  lemma IgnoredEvent(s1: seq<Event>, e: Event, s2: seq<Event>)
    requires !(e.branch in Branches && (e.kind == Lead || e.kind == Payment))
    ensures Aggregate(s1 + [e] + s2) == Aggregate(s1 + s2)
  {
    forall b | b == Moscow || b == West
      ensures Tally(s1 + [e] + s2, b) == Tally(s1 + s2, b)
    {
      var t := s1 + [e];
      assert t[..|t| - 1] == s1;
      assert Tally(t, b) == Tally(s1, b);
      TallyConcat(t, s2, b);
      TallyConcat(s1, s2, b);
    }
  }

  /** Branch record st after one more event e of that branch: a lead adds one
      lead, and one bonus point when the count goes from 3 to 4; a payment adds
      one payment and its points; any other type changes nothing. */
  function Bumped(st: Stats, e: Event): (r: Stats)
    ensures e.kind == Lead ==>
      r == Stats(st.leads + 1, st.payments, st.points + CalculateLeadPoints(st.leads + 1) - CalculateLeadPoints(st.leads))
    ensures e.kind == Payment ==>
      r.leads == st.leads && r.payments == st.payments + 1 && st.points + 1 <= r.points <= st.points + 25
    ensures e.kind != Lead && e.kind != Payment ==> r == st
  {
    if e.kind == Lead then Stats(st.leads + 1, st.payments, st.points + (if st.leads == 3 then 1 else 0))
    else if e.kind == Payment then Stats(st.leads, st.payments + 1, st.points + CalculatePaymentPoints(e.amount))
    else st
  }

  /** Appending one event changes only its own branch's record, by Bumped. */
  lemma AppendDelta(s: seq<Event>, e: Event, b: Branch)
    ensures BranchStats(s + [e], b) == if e.branch == b then Bumped(BranchStats(s, b), e) else BranchStats(s, b)
  {
    assert (s + [e])[..|s|] == s;
    LeadPointsStep(Tally(s, b).leads);
  }

  /** An empty list gives all-zero statistics. */
  lemma EmptyAggregate()
    ensures Aggregate([]) == Snapshot(Stats(0, 0, 0), Stats(0, 0, 0), Stats(0, 0, 0))
  {
  }

  /** A branch's points are the payment points of its payments plus the lead
      bonus for its number of leads, added once. */
  lemma BranchPoints(s: seq<Event>, b: Branch)
    ensures BranchStats(s, b).points ==
      PaymentPointsSum(Matching(s, b, Payment)) + CalculateLeadPoints(|Matching(s, b, Lead)|)
  {
    TallyCountsMatching(s, b);
  }

  /** Four Moscow leads and nothing else: one bonus point for Moscow and the total. */
  lemma FourMoscowLeads(s: seq<Event>)
    requires s == [Event(1, Lead, Moscow, 0), Event(2, Lead, Moscow, 0), Event(3, Lead, Moscow, 0), Event(4, Lead, Moscow, 0)]
    ensures Aggregate(s).moscow == Stats(4, 0, 1) && Aggregate(s).west == Stats(0, 0, 0)
    ensures Aggregate(s).total == Stats(4, 0, 1)
  {
    assert s[..0] == [] && s[..4] == s;
    TallyStep(s, 0, Moscow);
    TallyStep(s, 1, Moscow);
    TallyStep(s, 2, Moscow);
    TallyStep(s, 3, Moscow);
    TallyStep(s, 0, West);
    TallyStep(s, 1, West);
    TallyStep(s, 2, West);
    TallyStep(s, 3, West);
  }

  /** Three Moscow leads and one Moscow payment of 60000: no bonus, 25 points. */
  lemma ThreeLeadsOneLargePayment(s: seq<Event>)
    requires s == [Event(1, Lead, Moscow, 0), Event(2, Lead, Moscow, 0), Event(3, Lead, Moscow, 0), Event(4, Payment, Moscow, 60000)]
    ensures BranchStats(s, Moscow) == Stats(3, 1, 25)
  {
    assert s[..0] == [] && s[..4] == s;
    TallyStep(s, 0, Moscow);
    TallyStep(s, 1, Moscow);
    TallyStep(s, 2, Moscow);
    TallyStep(s, 3, Moscow);
  }

  /** The total is the sum of the already-bonused branch records, not a bonus
      over the combined leads: two leads per branch make four leads in all
      and no point. */
  lemma TotalBonusIsPerBranch(s: seq<Event>)
    requires s == [Event(1, Lead, Moscow, 0), Event(2, Lead, Moscow, 0), Event(3, Lead, West, 0), Event(4, Lead, West, 0)]
    ensures Aggregate(s).total.leads == 4 && Aggregate(s).total.points == 0
    ensures CalculateLeadPoints(Aggregate(s).total.leads) == 1
  {
    assert s[..0] == [] && s[..4] == s;
    TallyStep(s, 0, Moscow);
    TallyStep(s, 1, Moscow);
    TallyStep(s, 2, Moscow);
    TallyStep(s, 3, Moscow);
    TallyStep(s, 0, West);
    TallyStep(s, 1, West);
    TallyStep(s, 2, West);
    TallyStep(s, 3, West);
  }
}
