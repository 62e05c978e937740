# Eywa landing page: lead and payment scoring

The Eywa landing page keeps a list of synthetic sales events in its
`EywaGame` object. Each event is a "lead" or a "payment" and belongs to the
Moscow or the West branch. From that list the object computes three statistics
records of `{ leads, payments, points }`: one for Moscow, one for West and a
total. The points follow two scoring rules:

- a branch gets one bonus point once it has four leads or more;
- each payment earns 1, 10, 15 or 25 points depending on its amount.

At start-up the page generates 20 to 30 random events. From time to time it
appends one more event, and it recomputes the records from scratch after
every change.

The project models that core in four modules:

- `Scoring` (scoring.dfy): the two scoring rules, as pure functions.
- `Events` (events.dfy): the event record, the random draws behind one event,
  the list the generation loop produces, and the type filters.
- `Aggregation` (aggregation.dfy): what the statistics of an event list are.
  `Tally` is the per-event walk, `BranchStats` adds the lead bonus once, and
  `Aggregate` gives the three records. The lemmas about them live here too:
  exact counts, the points formula, permutation invariance, ignored events,
  the effect of one appended event, and the scenarios.
- `Game` (game.dfy): the class `EywaGame`. Its fields are the event, deal and
  client lists and the three records. `CalculateBranchStats`,
  `GenerateSampleData` and `AddNewLead` change those fields in place, as the
  page's methods do. Each is proved against the functions of `Aggregation`
  and `Events`.

Modelling choices:

- The branch and type strings become the datatypes `Branch` and `Kind`. Each
  has an extra "other" case, so the walk's silent skipping of unknown tags is
  modelled as well.
- The three random choices that reach the statistics become the fields of a
  `Draw` parameter: the branch index, the payment coin and the amount roll.
  The random event count becomes the number of draws, which the constructor
  requires to be 20 to 30. The random company, contact and date are dropped,
  and so is the timer's random choice of whether to add an event at all. The
  payment probabilities (0.4 at start-up, 0.3 in `addNewLead`) are not
  modelled; any draw is allowed.
- Amounts are unbounded integers. Every payment amount that can occur is an
  integer from 1000 to 100999, and every lead carries 0, so no floating-point
  behaviour is involved.
- The total is the element-wise sum of the two bonused branch records. The
  source does not compute a bonus from the combined lead count, and the model
  keeps that. `TotalBonusIsPerBranch` shows a list with four leads in total
  and no point.
- Negative amounts are not rejected. They score 1 point, because the first
  comparison (`amount < 10000`) catches them. The model keeps this.
- `generateSampleData` pushes onto the existing list without clearing it, and
  numbers the new events from 1. `GenerateSampleData` keeps that: it appends.
  The constructor runs it on the empty list.

## Model

| member | source | states |
|---|---|---|
| Scoring.CalculateLeadPoints | script.js:173-176 | the bonus is 1 exactly when the lead count is at least 4, otherwise 0; never more than 1 |
| Scoring.LeadPointsStep | script.js:173-176 | one more lead raises the bonus only when the count goes from 3 to 4 |
| Scoring.CalculatePaymentPoints | script.js:178-184 | the points are one of 1, 10, 15, 25, each exactly on its amount band (below 10000, [10000, 30000), [30000, 50000), 50000 and above), negatives included in the first |
| Scoring.PaymentPointsMonotone | script.js:178-184 | a larger amount never earns fewer points |
| Scoring.PaymentPointsBoundaries | script.js:180-183 | 9999→1, 10000→10, 29999→10, 30000→15, 49999→15, 50000→25, 0→1, -5000→1 |
| Events.MakeEvent | script.js:115-126 | the event built from one draw has the given id, is a payment exactly when the draw says so, has a positive amount exactly when it is a payment, with a lead at 0 and a payment in [1000, 100999], and is in Moscow exactly for branch index 0 |
| Events.Generated | script.js:113-128 | the generation loop produces exactly one event per draw |
| Events.GeneratedStep | script.js:114-128 | one more loop iteration appends exactly the event built from the next draw, with id i + 1 |
| Events.GeneratedShape | script.js:113-128 | the i-th generated event is built from the i-th draw with id i + 1, so its ids are 1..n in order and every event is a Moscow or West lead or payment with an amount in range |
| Events.OfKind | script.js:131-132 | the filter keeps only events of the given type, all of them, and is no longer than its input |
| Events.Matching | script.js:145-160 | the events of one branch and type: only those, all of them |
| Events.OfKindAbsent | script.js:131-132 | a list without events of a type gives an empty filter |
| Events.OfKindConcat | script.js:131-132 | filtering a concatenation is concatenating the filters |
| Events.GeneratedHasNoDealsOrClients | script.js:130-132 | the generated list has no deals and no clients, so both filters are empty |
| Aggregation.NewStats | script.js:140-142 | a reset record has zero leads, payments and points |
| Aggregation.Step | script.js:146-160 | one event adds a lead exactly when it is a lead of the branch and a payment exactly when it is a payment of the branch, at most one of each; the points grow only with a payment, by that payment's points |
| Aggregation.Tally | script.js:145-161 | the walk from zero records counts at most one lead or payment per event, and its points lie between 1 and 25 per payment |
| Aggregation.BranchStats | script.js:163-165 | a branch record keeps the walk's lead and payment counts and adds to its points exactly one point when it has 4 leads or more, nothing otherwise |
| Aggregation.Aggregate | script.js:138-171 | the Moscow and West records are the two branch records, and the total is their field-by-field sum, bonuses included |
| Aggregation.PaymentPointsSum | script.js:152-158 | the points of a list of payments lie between 1 and 25 per payment |
| Aggregation.BranchStatsBounds | script.js:163-165 | a branch's points lie between its payment count and 25 per payment, plus the bonus |
| Aggregation.TallyCountsMatching | script.js:145-161 | a branch's lead and payment counts are exactly the numbers of its lead and payment events, and its walk points are the sum of the payment points of exactly its payments |
| Aggregation.BranchPoints | script.js:145-165 | a branch's points are the sum of its payments' points plus the bonus for its number of leads, added once |
| Aggregation.TallyStep | script.js:145-161 | the walk over one more event applies that event's step |
| Aggregation.TallyConcat | script.js:145-161 | the walk's counters over a concatenation are the sums of the parts' counters |
| Aggregation.TallyMoveToEnd | script.js:145-161 | moving one event to the end of the list leaves the walk's counters unchanged |
| Aggregation.TallyPermutation | script.js:145-161 | two lists with the same multiset of events give the same counters |
| Aggregation.AggregatePermutation | script.js:138-171 | reordering the event list leaves all three records unchanged |
| Aggregation.IgnoredEvent | script.js:145-161 | an event of another branch or of another type, inserted anywhere, changes no record |
| Aggregation.Bumped | script.js:145-165 | a record after one more event of its branch: a lead adds one lead and the change of the lead bonus, a payment adds one payment and 1 to 25 points, any other type changes nothing |
| Aggregation.AppendDelta | script.js:320-321 | appending one event leaves the other branch's record unchanged and changes its own branch by exactly one lead (plus the bonus point on the fourth) or one payment and its points |
| Aggregation.EmptyAggregate | script.js:138-171 | an empty event list gives three all-zero records |
| Aggregation.FourMoscowLeads | script.js:138-171 | four Moscow leads give Moscow and the total { 4, 0, 1 } and West all zero |
| Aggregation.ThreeLeadsOneLargePayment | script.js:138-171 | three Moscow leads and a 60000 payment give Moscow { 3, 1, 25 } |
| Aggregation.TotalBonusIsPerBranch | script.js:167-170 | two leads per branch give a total of 4 leads and 0 points, although 4 leads would earn the bonus |
| Game.EywaGame.constructor | script.js:3-22 | after start-up the list is the generated one, 20 to 30 events, ids 1..n; deals and clients are empty and the records are those of the list |
| Game.EywaGame.CalculateBranchStats | script.js:138-171 | the lists are unchanged and the three records are exactly Aggregate of the event list, whatever they held before |
| Game.EywaGame.GenerateSampleData | script.js:95-136 | the list grows by exactly the generated events, deals and clients are the type filters of the new list, and the records are recomputed |
| Game.EywaGame.AddNewLead | script.js:302-321 | the list grows by one event with id old length + 1; the object stays well formed; the other branch's record is unchanged and the new event's branch changes by Bumped |
| Game.RecomputeTwice | script.js:138-171 | recomputing twice in a row leaves the event list and the records as the first pass left them |

## Left out

- Rendering and the rest of the page are not part of this model: the DOM, markers on the tree, notifications, animations, parallax, smooth scrolling, background music and the `updateStats` / `renderLeadsOnTree` calls after a change.
- The periodic timer that calls `addNewLead` with probability 0.3 every 5 seconds is not modelled. `AddNewLead` is one call.
- The company, contact and date fields of an event are display-only and are dropped. So is the date's dependence on the clock.
- Random draws are parameters. The probabilities behind them, and the uniformity of the branch and amount choices, are not modelled.
- Game.EywaGame.AddNewLead: the draw may be a payment with any valid roll, the same as at start-up; the source's 0.3 versus 0.4 payment probability is not expressed.
- Events.OfKind, Events.Matching: their contracts give membership in both directions and a length bound; that the filters keep the input order is not stated.
- The statistics records are JavaScript objects. The source replaces them wholesale at every recomputation and then increments their fields. The model keeps them as datatype values that are reassigned, so aliasing of those objects is not modelled (the source never shares them).
