/** The page's application object: the event list, the deal and client
    lists, and the three statistics records it recomputes after every change. */
module Game {
  import opened Scoring
  import opened Events
  import opened Aggregation

  class EywaGame {
    var leads: seq<Event>
    var deals: seq<Event>
    var clients: seq<Event>
    var moscowStats: Stats
    var westStats: Stats
    var totalStats: Stats

    /** The three records are those of the current event list. */
    ghost predicate StatsCurrent()
      reads this
    {
      Snapshot(moscowStats, westStats, totalStats) == Aggregate(leads)
    }

    /** The object as the page keeps it after start-up. */
    ghost predicate Valid()
      reads this
    {
      WellFormed(leads) && deals == [] && clients == [] && StatsCurrent()
    }

    /** Start-up: empty lists and zero records, then the sample data. */
    constructor (draws: seq<Draw>)
      requires 20 <= |draws| <= 30
      requires forall i :: 0 <= i < |draws| ==> ValidDraw(draws[i])
      ensures Valid()
      ensures leads == Generated(draws) && 20 <= |leads| <= 30
    {
      leads, deals, clients := [], [], [];
      var m := NewStats();
      var w := NewStats();
      var t := NewStats();
      moscowStats, westStats, totalStats := m, w, t;
      new;
      ghost var s := Generated(draws);
      assert [] + s == s;
      GeneratedShape(draws);
      GeneratedHasNoDealsOrClients(draws);
      GenerateSampleData(draws);
    }

    /** Resets the three records and walks the event list once, then adds
        each branch's lead bonus and sums the branches into the total. */
    method CalculateBranchStats()
      modifies this
      ensures leads == old(leads) && deals == old(deals) && clients == old(clients)
      ensures StatsCurrent()
    {
      moscowStats := NewStats();
      westStats := NewStats();
      totalStats := NewStats();
      var i := 0;
      while i < |leads|
        invariant 0 <= i <= |leads|
        invariant leads == old(leads) && deals == old(deals) && clients == old(clients)
        invariant moscowStats == Tally(leads[..i], Moscow)
        invariant westStats == Tally(leads[..i], West)
      {
        var lead := leads[i];
        TallyStep(leads, i, Moscow);
        TallyStep(leads, i, West);
        if lead.branch == Moscow {
          if lead.kind == Lead {
            moscowStats := moscowStats.(leads := moscowStats.leads + 1);
          } else if lead.kind == Payment {
            moscowStats := moscowStats.(payments := moscowStats.payments + 1);
            moscowStats := moscowStats.(points := moscowStats.points + CalculatePaymentPoints(lead.amount));
          }
        } else if lead.branch == West {
          if lead.kind == Lead {
            westStats := westStats.(leads := westStats.leads + 1);
          } else if lead.kind == Payment {
            westStats := westStats.(payments := westStats.payments + 1);
            westStats := westStats.(points := westStats.points + CalculatePaymentPoints(lead.amount));
          }
        }
        i := i + 1;
      }
      assert leads[..i] == leads;
      moscowStats := moscowStats.(points := moscowStats.points + CalculateLeadPoints(moscowStats.leads));
      westStats := westStats.(points := westStats.points + CalculateLeadPoints(westStats.leads));
      totalStats := totalStats.(leads := moscowStats.leads + westStats.leads);
      totalStats := totalStats.(payments := moscowStats.payments + westStats.payments);
      totalStats := totalStats.(points := moscowStats.points + westStats.points);
    }

    /** Pushes one event per draw onto the list, the i-th with id i + 1,
        refilters deals and clients and recomputes the records. */
    method GenerateSampleData(draws: seq<Draw>)
      requires 20 <= |draws| <= 30
      requires forall i :: 0 <= i < |draws| ==> ValidDraw(draws[i])
      modifies this
      ensures leads == old(leads) + Generated(draws)
      ensures deals == OfKind(leads, Deal) && clients == OfKind(leads, Client)
      ensures StatsCurrent()
    {
      var i := 0;
      while i < |draws|
        invariant 0 <= i <= |draws|
        invariant leads == old(leads) + Generated(draws[..i])
      {
        var lead := MakeEvent(i + 1, draws[i]);
        GeneratedStep(draws, i);
        leads := leads + [lead];
        i := i + 1;
      }
      assert draws[..i] == draws;
      deals := OfKind(leads, Deal);
      clients := OfKind(leads, Client);
      CalculateBranchStats();
    }

    /** Appends one event with id |leads| + 1 and recomputes the records:
        only the new event's branch and the total change, by Bumped. */
    method AddNewLead(d: Draw)
      requires Valid() && ValidDraw(d)
      modifies this
      ensures leads == old(leads) + [MakeEvent(|old(leads)| + 1, d)]
      ensures Valid()
      ensures var e := MakeEvent(|old(leads)| + 1, d);
        moscowStats == (if e.branch == Moscow then Bumped(old(moscowStats), e) else old(moscowStats)) &&
        westStats == (if e.branch == West then Bumped(old(westStats), e) else old(westStats))
    {
      var newLead := MakeEvent(|leads| + 1, d);
      leads := leads + [newLead];
      CalculateBranchStats();
      AppendDelta(old(leads), newLead, Moscow);
      AppendDelta(old(leads), newLead, West);
    }
  }

  /** Recomputing twice in a row: the second pass reproduces the first. */
  method RecomputeTwice(g: EywaGame) returns (first: Snapshot)
    modifies g
    ensures g.leads == old(g.leads)
    ensures first == Snapshot(g.moscowStats, g.westStats, g.totalStats)
  {
    g.CalculateBranchStats();
    first := Snapshot(g.moscowStats, g.westStats, g.totalStats);
    g.CalculateBranchStats();
  }
}
