/**
 How a deadline travels: it is sent as the time that is left and turned back into an instant of the
 receiver's clock, so that clocks need not agree.
 */
module Deadlines {
  /** Time left until `deadline`; none if it has passed. */
  function Serialize(deadline: int, now: int): nat {
    if now < deadline then deadline - now else 0
  }

  function Deserialize(left: nat, now: int): int {
    now + left
  }

  /** A machine on the way: how far its clock is off, and when the request comes and goes. */
  datatype Hop = Hop(skew: int, arrive: int, leave: int) {
    ghost predicate Valid() {
      arrive <= leave
    }

    /** What the machine sends on, computed with its own clock. */
    function Forward(left: nat): nat {
      Serialize(Deserialize(left, arrive + skew), leave + skew)
    }
  }

  ghost predicate Route(hops: seq<Hop>) {
    forall i :: 0 <= i < |hops| ==> hops[i].Valid()
  }

  /** The budget after the last hop. */
  function Budget(left: nat, hops: seq<Hop>): nat {
    if hops == [] then left else hops[|hops| - 1].Forward(Budget(left, hops[..|hops| - 1]))
  }

  /** Time spent on the machines. */
  function Dwell(hops: seq<Hop>): int {
    if hops == [] then 0 else Dwell(hops[..|hops| - 1]) + hops[|hops| - 1].leave - hops[|hops| - 1].arrive
  }

  /** When the request left the machine before. */
  function Departure(sent: int, hops: seq<Hop>): int {
    if hops == [] then sent else hops[|hops| - 1].leave
  }

  /** Time spent between the machines. */
  function Transit(sent: int, hops: seq<Hop>): int {
    if hops == [] then 0
    else
      var before := hops[..|hops| - 1];
      Transit(sent, before) + hops[|hops| - 1].arrive - Departure(sent, before)
  }

  /** Whatever the clocks say, the budget falls by the time spent on the machines, and by nothing else. */
  lemma {:induction false} BudgetIsWhatIsLeft(left: nat, hops: seq<Hop>)
    requires Route(hops)
    ensures 0 <= Dwell(hops)
    ensures Budget(left, hops) == if Dwell(hops) < left then left - Dwell(hops) else 0
  {
    if hops == [] {
    } else {
      BudgetIsWhatIsLeft(left, hops[..|hops| - 1]);
    }
  }

  /** A budget never grows on the way. */
  lemma {:induction false} BudgetNeverGrows(left: nat, hops: seq<Hop>, n: nat)
    requires Route(hops) && n <= |hops|
    ensures Budget(left, hops) <= Budget(left, hops[..n])
  {
    if n < |hops| {
      BudgetNeverGrows(left, hops[..|hops| - 1], n);
      assert hops[..|hops| - 1][..n] == hops[..n];
    } else {
      assert hops[..n] == hops;
    }
  }

  lemma {:induction false} TimeOnTheWay(sent: int, hops: seq<Hop>)
    ensures Departure(sent, hops) - sent == Dwell(hops) + Transit(sent, hops)
  {
    if hops == [] {
    } else {
      TimeOnTheWay(sent, hops[..|hops| - 1]);
    }
  }

  /**
   While there is budget left, the last machine's deadline is the first one's, moved by exactly the
   time the request spent between the machines.
   */
  lemma DeadlineMovesByTransit(deadline: int, sent: int, hops: seq<Hop>, last: Hop)
    requires Route(hops) && 0 < Budget(Serialize(deadline, sent), hops)
    ensures Deserialize(Budget(Serialize(deadline, sent), hops), last.arrive + last.skew)
            == deadline + Transit(sent, hops + [last]) + last.skew
  {
    BudgetIsWhatIsLeft(Serialize(deadline, sent), hops);
    TimeOnTheWay(sent, hops);
    assert (hops + [last])[..|hops|] == hops;
  }
}
