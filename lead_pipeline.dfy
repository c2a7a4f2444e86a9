/** The agency's lead board: three fixed stages and the status changes each stage
    offers. */
module LeadPipeline {
  import opened Domain

  datatype StageKey = NewLeads | InProgress | Closed

  /** A card on the board. The date stays the booking's timestamp; its locale
      rendering is not modelled. */
  datatype Lead = Lead(id: Id, clientName: string, eventType: string, date: int, value: real, status: Status)

  /** The `leads` prop: the cards of each stage. */
  datatype Leads = Leads(newLeads: seq<Lead>, inProgress: seq<Lead>, closed: seq<Lead>)

  datatype Stage = Stage(key: StageKey, title: string, items: seq<Lead>)

  /** `stages`: New Leads, In Progress and Closed, in that order, each holding its
      cards; the badge shows `|items|`. */
  function Stages(leads: Leads): (r: seq<Stage>)
    ensures |r| == 3
    ensures r[0] == Stage(NewLeads, "New Leads", leads.newLeads)
    ensures r[1] == Stage(InProgress, "In Progress", leads.inProgress)
    ensures r[2] == Stage(Closed, "Closed", leads.closed)
  {
    [Stage(NewLeads, "New Leads", leads.newLeads),
     Stage(InProgress, "In Progress", leads.inProgress),
     Stage(Closed, "Closed", leads.closed)]
  }

  /** The badge count of a stage. */
  function ItemCount(s: Stage): nat {
    |s.items|
  }

  /** The statuses a card's buttons send: Accept and Reject on a new lead, "Mark
      Internal Complete" on one in progress, nothing on a closed one, and nothing at
      all without an `onUpdateStatus` callback. */
  function Offered(key: StageKey, hasCallback: bool): (r: seq<Status>)
    ensures !hasCallback ==> r == []
    ensures hasCallback && key == NewLeads ==> r == [Confirmed, Cancelled]
    ensures hasCallback && key == InProgress ==> r == [Completed]
    ensures key == Closed ==> r == []
  {
    if !hasCallback then []
    else match key
      case NewLeads => [Confirmed, Cancelled]
      case InProgress => [Completed]
      case Closed => []
  }

  /** The stage key each stage's badge and buttons use, and the stage's count. */
  lemma StagesInOrder(leads: Leads)
    ensures forall i :: 0 <= i < 3 ==> Stages(leads)[i].key == [NewLeads, InProgress, Closed][i]
    ensures ItemCount(Stages(leads)[0]) + ItemCount(Stages(leads)[1]) + ItemCount(Stages(leads)[2]) ==
            |leads.newLeads| + |leads.inProgress| + |leads.closed|
  {
  }
}

/** How the two boards together realise the booking lifecycle. */
module Lifecycle {
  import opened Domain
  import opened LeadPipeline
  import UserBookingsPage

  /** The agency's buttons move PENDING (the new stage) and CONFIRMED (in progress);
      the customer's Cancel button adds the remaining step, CONFIRMED to CANCELLED.
      Together they offer exactly the lifecycle's steps, and nothing leaves
      COMPLETED or CANCELLED. */
  lemma OfferedStepsAreTheLifecycle(from: Status, to: Status)
    ensures LifecycleStep(from, to) <==>
      (from == Pending && to in Offered(NewLeads, true)) ||
      (from == Confirmed && to in Offered(InProgress, true)) ||
      (UserBookingsPage.CanCancel(from) && to == Cancelled)
  {
  }

  /** Every step the agency board offers is a lifecycle step. */
  lemma AgencyStepsAreLifecycleSteps(to: Status)
    ensures to in Offered(NewLeads, true) ==> LifecycleStep(Pending, to)
    ensures to in Offered(InProgress, true) ==> LifecycleStep(Confirmed, to)
  {
  }
}
