/** The citizen dashboard's counter of complaints still in progress
    (`views/Dashboard.tsx`). */
module Dashboard {
  import opened Lists
  import opened Domain
  import opened AdminTickets
  import opened AdminTicketsProperties

  /** Neither CLOSED nor SOLVED. */
  predicate IsActive(c: Complaint) {
    c.status != Closed && c.status != Solved
  }

  /** `activeCount`. */
  function ActiveCount(cs: seq<Complaint>): nat {
    Count(cs, IsActive)
  }

  /** The counter never exceeds the number of complaints, is 0 when every
      complaint is CLOSED or SOLVED, and never exceeds the staff desk's
      inbox counter, which leaves out only CLOSED tickets. */
  lemma ActiveCountBounds(cs: seq<Complaint>)
    ensures ActiveCount(cs) <= |cs|
    ensures (forall i :: 0 <= i < |cs| ==> cs[i].status in {Closed, Solved}) ==> ActiveCount(cs) == 0
    ensures ActiveCount(cs) <= StatsOf(cs).inbox
  {
    if forall i :: 0 <= i < |cs| ==> cs[i].status in {Closed, Solved} {
      CountNone(cs, IsActive);
    }
    CountMonotone(cs, IsActive, IsOpen);
    StatsCounters(cs);
  }

  /** The counter and the inbox differ exactly by the SOLVED complaints. */
  lemma ActivePlusSolvedIsInbox(cs: seq<Complaint>)
    ensures ActiveCount(cs) + Count(cs, IsSolved) == StatsOf(cs).inbox
  {
    StatsCounters(cs);
    SplitOpen(cs);
  }

  predicate IsSolved(c: Complaint) {
    c.status == Solved
  }

  lemma {:induction false} SplitOpen(cs: seq<Complaint>)
    ensures Count(cs, IsActive) + Count(cs, IsSolved) == Count(cs, IsOpen)
    decreases |cs|
  {
    if cs != [] {
      SplitOpen(cs[1..]);
    }
  }
}
