/** The event records ("leads") the page keeps, the random draws that make
    them, and the filters over lists of them. */
module Events {

  /** The branch tag of an event. The page only ever writes "moscow" or
      "west"; any other tag is skipped by the statistics. */
  datatype Branch = Moscow | West | OtherBranch

  /** The type tag of an event. Only "lead" and "payment" are ever written;
      "deal" and "client" are looked for by two filters; anything else is
      skipped by the statistics. */
  datatype Kind = Lead | Payment | Deal | Client | OtherKind

  /** One event. The display-only company, contact and date are not kept. */
  datatype Event = Event(id: nat, kind: Kind, branch: Branch, amount: int)

  /** The branch list an event's branch is drawn from, by index. */
  const Branches: seq<Branch> := [Moscow, West]

  /** The random choices behind one event: the branch index
      floor(random * 2), whether it is a payment, and the amount roll
      floor(random * 100000). */
  datatype Draw = Draw(branchIndex: nat, isPayment: bool, amountRoll: nat)

  predicate ValidDraw(d: Draw) {
    d.branchIndex < |Branches| && d.amountRoll < 100000
  }

  /** What the generator can produce: one of the two branches, a lead with
      amount 0 or a payment with amount in [1000, 100999]. */
  predicate Issued(e: Event) {
    (e.branch == Moscow || e.branch == West) &&
    (e.kind == Lead || e.kind == Payment) &&
    (e.kind == Lead ==> e.amount == 0) &&
    (e.kind == Payment ==> 1000 <= e.amount <= 100999)
  }

  /** An event list as the page keeps it: ids 1..n in order, every event issued. */
  predicate WellFormed(s: seq<Event>) {
    forall i :: 0 <= i < |s| ==> s[i].id == i + 1 && Issued(s[i])
  }

  /** The event literal built from one draw. */
  function MakeEvent(id: nat, d: Draw): (e: Event)
    requires ValidDraw(d)
    ensures Issued(e) && e.id == id
    ensures e.kind == Payment <==> d.isPayment
    ensures e.amount > 0 <==> e.kind == Payment
    ensures d.branchIndex == 0 <==> e.branch == Moscow
  {
    Event(id, if d.isPayment then Payment else Lead, Branches[d.branchIndex],
          if d.isPayment then d.amountRoll + 1000 else 0)
  }

  /** The events the generation loop pushes, one per draw, the i-th with id i + 1. */
  function Generated(draws: seq<Draw>): (s: seq<Event>)
    requires forall i :: 0 <= i < |draws| ==> ValidDraw(draws[i])
    ensures |s| == |draws|
  {
    if draws == [] then []
    else Generated(draws[..|draws| - 1]) + [MakeEvent(|draws|, draws[|draws| - 1])]
  }

  /** The generation loop's step: one more draw pushes one more event. */
  lemma GeneratedStep(draws: seq<Draw>, i: nat)
    requires forall i :: 0 <= i < |draws| ==> ValidDraw(draws[i])
    requires i < |draws|
    ensures Generated(draws[..i + 1]) == Generated(draws[..i]) + [MakeEvent(i + 1, draws[i])]
  {
    assert draws[..i + 1][..i] == draws[..i];
  }

  /** The generated list has one event per draw, the i-th built from the i-th
      draw with id i + 1; so it is well formed. */
  lemma {:induction false} GeneratedShape(draws: seq<Draw>)
    requires forall i :: 0 <= i < |draws| ==> ValidDraw(draws[i])
    ensures forall i :: 0 <= i < |draws| ==> Generated(draws)[i] == MakeEvent(i + 1, draws[i])
    ensures WellFormed(Generated(draws))
  {
    if draws != [] {
      GeneratedShape(draws[..|draws| - 1]);
    }
  }

  /** The events of s whose type is k, in order (the deal and client filters). */
  function OfKind(s: seq<Event>, k: Kind): (r: seq<Event>)
    ensures |r| <= |s|
    ensures forall e :: e in r ==> e in s && e.kind == k
    ensures forall i :: 0 <= i < |s| && s[i].kind == k ==> s[i] in r
  {
    if s == [] then []
    else OfKind(s[..|s| - 1], k) + (if s[|s| - 1].kind == k then [s[|s| - 1]] else [])
  }

  /** The events of s in branch b with type k, in order. */
  function Matching(s: seq<Event>, b: Branch, k: Kind): (r: seq<Event>)
    ensures |r| <= |s|
    ensures forall e :: e in r ==> e in s && e.branch == b && e.kind == k
    ensures forall i :: 0 <= i < |s| && s[i].branch == b && s[i].kind == k ==> s[i] in r
  {
    if s == [] then []
    else
      var e := s[|s| - 1];
      Matching(s[..|s| - 1], b, k) + (if e.branch == b && e.kind == k then [e] else [])
  }

  /** A list in which no event has type k has nothing for the k filter. */
  lemma {:induction false} OfKindAbsent(s: seq<Event>, k: Kind)
    requires forall i :: 0 <= i < |s| ==> s[i].kind != k
    ensures OfKind(s, k) == []
  {
    if s != [] {
      OfKindAbsent(s[..|s| - 1], k);
    }
  }

  /** Dropping the last element of a concatenation drops it from its second part. */
  lemma LastOfConcat(s: seq<Event>, t: seq<Event>)
    requires t != []
    ensures (s + t)[..|s + t| - 1] == s + t[..|t| - 1]
    ensures (s + t)[|s + t| - 1] == t[|t| - 1]
  {
  }

  /** Filtering distributes over concatenation. */
  lemma {:induction false} OfKindConcat(s: seq<Event>, t: seq<Event>, k: Kind)
    ensures OfKind(s + t, k) == OfKind(s, k) + OfKind(t, k)
    decreases |t|
  {
    if t == [] {
      assert s + t == s;
    } else {
      LastOfConcat(s, t);
      OfKindConcat(s, t[..|t| - 1], k);
    }
  }

  /** No generated event is a deal or a client, so both filters come out empty. */
  lemma GeneratedHasNoDealsOrClients(draws: seq<Draw>)
    requires forall i :: 0 <= i < |draws| ==> ValidDraw(draws[i])
    ensures OfKind(Generated(draws), Deal) == []
    ensures OfKind(Generated(draws), Client) == []
  {
    GeneratedShape(draws);
    var s := Generated(draws);
    OfKindAbsent(s, Deal);
    OfKindAbsent(s, Client);
  }
}
