/** The Budget Buddy widget: the amount spent on live bookings, the advice shown
    for the share of the budget used, and the progress bar. */
module BudgetBuddy {
  import opened Domain
  import opened JsMath
  import Seqs
  import UserDashboard

  function NotCancelled(): Booking -> bool {
    (b: Booking) => b.status != Cancelled
  }

  /** The spent total: the amounts of the bookings that are not CANCELLED. It is
      never negative for non-negative amounts, and nothing is spent when every
      booking is cancelled. */
  function Spent(bookings: seq<Booking>): (r: real)
    ensures (forall b :: b in bookings ==> b.totalAmount >= 0.0) ==> r >= 0.0
    ensures (forall b :: b in bookings ==> b.status == Cancelled) ==> r == 0.0
  {
    var live := Seqs.Filter(bookings, NotCancelled());
    assert (forall b :: b in bookings ==> b.status == Cancelled) ==> live == [] by {
      if live != [] {
        assert live[0] in bookings && NotCancelled()(live[0]);
      }
    }
    if forall b :: b in bookings ==> b.totalAmount >= 0.0 then
      assert forall i :: 0 <= i < |live| ==> live[i] in bookings;
      Seqs.SumOfNonNegative(live, Amount);
      Seqs.SumOf(live, Amount)
    else
      Seqs.SumOf(live, Amount)
  }

  /** With non-negative amounts the widget's spend never exceeds the dashboard's
      total, which also counts cancelled bookings, and the two agree when nothing is
      cancelled. */
  lemma SpentAtMostTotal(bookings: seq<Booking>)
    requires forall b :: b in bookings ==> b.totalAmount >= 0.0
    ensures 0.0 <= Spent(bookings) <= UserDashboard.TotalSpent(bookings)
    ensures (forall b :: b in bookings ==> b.status != Cancelled) ==> Spent(bookings) == UserDashboard.TotalSpent(bookings)
  {
    Seqs.SumOfFilterAtMost(bookings, NotCancelled(), Amount);
    var live := Seqs.Filter(bookings, NotCancelled());
    assert forall i :: 0 <= i < |live| ==> live[i] in bookings;
    Seqs.SumOfNonNegative(live, Amount);
    if forall b :: b in bookings ==> b.status != Cancelled {
      Seqs.FilterAll(bookings, NotCancelled());
    }
  }

  /** The messages of `getAiMessage`. */
  datatype Advice = SetBudget | Exceeded | VeryClose | Over75 | Halfway | GreatStart

  function Text(a: Advice): string {
    match a
    case SetBudget => "Hi! Set a budget to get started. I'll help you stay on track."
    case Exceeded => "\U{26A0}\U{FE0F} Alert! You've exceeded your budget. Consider reviewing your recent bookings."
    case VeryClose => "Careful! You're very close to your limit. Look for value packages."
    case Over75 => "You've used over 75% of your budget. Keep an eye on expenses!"
    case Halfway => "Halfway there! You're doing great. Still have room for premium add-ons."
    case GreatStart => "Great start! You have plenty of budget left. Have you checked out our trending agencies?"
  }

  /** The share of the budget used, in percent: 100 for spending exactly the
      budget, above 100 exactly when a positive budget is overspent, never negative
      for a non-negative spend and a positive budget. */
  function Percentage(spent: real, budget: real): (r: real)
    requires budget != 0.0
    ensures spent == budget ==> r == 100.0
    ensures budget > 0.0 ==> (r > 100.0 <==> spent > budget)
    ensures budget > 0.0 && spent >= 0.0 ==> r >= 0.0
  {
    RatioFacts(spent, budget);
    spent / budget * 100.0
  }

  lemma RatioFacts(x: real, y: real)
    requires y != 0.0
    ensures x == y ==> x / y == 1.0
    ensures y > 0.0 ==> (x / y > 1.0 <==> x > y)
    ensures y > 0.0 && x >= 0.0 ==> x / y >= 0.0
  {
    var q := x / y;
    assert x == q * y;
  }

  /** The message for a percentage: strictly above 100, 90, 75 and 50 in turn. */
  function AdviceFor(percentage: real): (a: Advice)
    ensures a == Exceeded <==> percentage > 100.0
    ensures a == VeryClose <==> 90.0 < percentage <= 100.0
    ensures a == Over75 <==> 75.0 < percentage <= 90.0
    ensures a == Halfway <==> 50.0 < percentage <= 75.0
    ensures a == GreatStart <==> percentage <= 50.0
  {
    if percentage > 100.0 then Exceeded
    else if percentage > 90.0 then VeryClose
    else if percentage > 75.0 then Over75
    else if percentage > 50.0 then Halfway
    else GreatStart
  }

  /** `getAiMessage`: a zero budget asks for one, whatever has been spent. */
  function GetAiMessage(spent: real, budget: real): (a: Advice)
    ensures budget == 0.0 <==> a == SetBudget
    ensures budget != 0.0 ==> a == AdviceFor(Percentage(spent, budget))
  {
    if budget == 0.0 then SetBudget else AdviceFor(Percentage(spent, budget))
  }

  /** How alarming a message is. */
  function Severity(a: Advice): nat {
    match a
    case SetBudget => 0
    case GreatStart => 0
    case Halfway => 1
    case Over75 => 2
    case VeryClose => 3
    case Exceeded => 4
  }

  /** The advice never gets milder as the percentage grows. */
  lemma AdviceMonotone(p: real, q: real)
    requires p <= q
    ensures Severity(AdviceFor(p)) <= Severity(AdviceFor(q))
  {
  }

  /** Spending exactly the budget is "very close", not "exceeded"; spending exactly
      half is still a "great start". */
  lemma ThresholdsAreStrict(budget: real)
    requires budget > 0.0
    ensures GetAiMessage(budget, budget) == VeryClose
    ensures GetAiMessage(budget / 2.0, budget) == GreatStart
  {
    assert Percentage(budget, budget) == 100.0;
    var half := budget / 2.0;
    assert half / budget == 0.5 by {
      assert half == 0.5 * budget;
    }
    assert Percentage(half, budget) == 50.0;
  }

  /** The width of the progress bar, in percent. */
  function Width(spent: real, budget: real): (w: real)
    ensures budget <= 0.0 ==> w == 0.0
    ensures budget > 0.0 ==> w == Min(Percentage(spent, budget), 100.0)
  {
    if budget > 0.0 then Min(Percentage(spent, budget), 100.0) else 0.0
  }

  /** The bar is red when the spend is above a positive budget; a red bar always
      comes with the exceeded alert. */
  predicate IsRed(spent: real, budget: real)
    ensures IsRed(spent, budget) ==> GetAiMessage(spent, budget) == Exceeded
  {
    spent > budget && budget > 0.0
  }

  /** For a non-negative spend the bar fills between 0 and 100 percent. */
  lemma WidthBounds(spent: real, budget: real)
    requires spent >= 0.0
    ensures 0.0 <= Width(spent, budget) <= 100.0
  {
    if budget > 0.0 {
      assert spent / budget >= 0.0;
    }
  }

  /** A red bar is always full, and with a positive budget it is red exactly when the
      message is the exceeded alert. */
  lemma RedMeansFullAndExceeded(spent: real, budget: real)
    requires budget > 0.0
    ensures IsRed(spent, budget) ==> Width(spent, budget) == 100.0
    ensures IsRed(spent, budget) <==> GetAiMessage(spent, budget) == Exceeded
  {
  }
}
