/** The agency dashboard: the stats cards computed from the agency's bookings, the
    lead board built from them, and the optimistic status update that is undone
    when the request fails. */
module AgencyDashboard {
  import opened Domain
  import opened Wrappers
  import Seqs
  import opened LeadPipeline
  import RevenueChart

  /** A booking as `/api/agency/bookings` returns it, with the customer's name. */
  datatype AgencyBooking = AgencyBooking(
    id: Id,
    userName: Option<string>,
    date: int,
    totalAmount: real,
    packageType: string,
    status: Status)

  datatype Stats = Stats(totalRevenue: real, activeLeads: nat, completedEvents: nat, avgRating: real)

  /** The revenue already earned before any booking is counted. */
  const BaseRevenue: real := 2450000.0

  /** The six months of revenue the chart shows, September to February. */
  const MockRevenueData: seq<RevenueChart.Item> := [
    RevenueChart.Item("Sep", 320000.0), RevenueChart.Item("Oct", 450000.0),
    RevenueChart.Item("Nov", 380000.0), RevenueChart.Item("Dec", 520000.0),
    RevenueChart.Item("Jan", 410000.0), RevenueChart.Item("Feb", 370000.0)
  ]

  /** The mock months, read off the table: six of them, September the weakest at
      320000 and December the best at 520000. */
  lemma MockFacts(d: seq<RevenueChart.Item>)
    requires d == MockRevenueData
    ensures |d| == 6 && d[0].revenue == 320000.0 && d[3].revenue == 520000.0
    ensures forall i :: 0 <= i < |d| ==> 320000.0 <= d[i].revenue <= 520000.0
  {
  }

  /** December's 520000 is the largest revenue. */
  lemma MockMax(d: seq<RevenueChart.Item>)
    requires d == MockRevenueData
    ensures RevenueChart.MaxRevenue(d) == 520000.0
  {
    MockFacts(d);
    RevenueChart.PeakChart(d, 3);
  }

  /** December, the best month, fills its bar, and every bar lies in [0, 100]. */
  lemma MockChart(d: seq<RevenueChart.Item>)
    requires d == MockRevenueData
    ensures RevenueChart.Heights(d).Some? && |RevenueChart.Heights(d).value| == 6
    ensures RevenueChart.Heights(d).value[3] == 100.0
    ensures forall i :: 0 <= i < 6 ==> 0.0 <= RevenueChart.Heights(d).value[i] <= 100.0
  {
    MockFacts(d);
    RevenueChart.PeakChart(d, 3);
  }

  /** September, the weakest month, draws the lowest bar. */
  lemma MockLowestBar(d: seq<RevenueChart.Item>)
    requires d == MockRevenueData
    ensures RevenueChart.Heights(d).Some? && |RevenueChart.Heights(d).value| == 6
    ensures forall i :: 0 <= i < 6 ==> RevenueChart.Heights(d).value[0] <= RevenueChart.Heights(d).value[i]
  {
    MockFacts(d);
    RevenueChart.PeakChart(d, 3);
    RevenueChart.LowestBar(d, 0);
  }

  /** The stats the page starts with. */
  const InitialStats: Stats := Stats(BaseRevenue, 0, 0, 4.9)

  function IsActive(): AgencyBooking -> bool {
    (b: AgencyBooking) => b.status == Pending || b.status == Confirmed
  }

  function HasStatus(s: Status): AgencyBooking -> bool {
    (b: AgencyBooking) => b.status == s
  }

  function BookingAmount(b: AgencyBooking): real {
    b.totalAmount
  }

  /** Number of bookings with status `s`. */
  function CountStatus(data: seq<AgencyBooking>, s: Status): (r: nat)
    ensures r <= |data|
  {
    if data == [] then 0 else (if data[0].status == s then 1 else 0) + CountStatus(data[1..], s)
  }

  /** `calculateStats`: active leads are the PENDING and CONFIRMED bookings, completed
      events the COMPLETED ones, revenue the base plus the COMPLETED amounts; the
      rating is carried over. */
  function CalculateStats(prev: Stats, data: seq<AgencyBooking>): (r: Stats)
    ensures r.activeLeads == CountStatus(data, Pending) + CountStatus(data, Confirmed)
    ensures r.completedEvents == CountStatus(data, Completed)
    ensures r.totalRevenue == BaseRevenue + Seqs.SumOf(Seqs.Filter(data, HasStatus(Completed)), BookingAmount)
    ensures r.avgRating == prev.avgRating
  {
    ActiveCount(data);
    FilterCount(data, Completed);
    Stats(BaseRevenue + Seqs.SumOf(Seqs.Filter(data, HasStatus(Completed)), BookingAmount),
          |Seqs.Filter(data, IsActive())|, |Seqs.Filter(data, HasStatus(Completed))|, prev.avgRating)
  }

  lemma {:induction false} FilterCount(data: seq<AgencyBooking>, s: Status)
    ensures |Seqs.Filter(data, HasStatus(s))| == CountStatus(data, s)
  {
    if data != [] {
      FilterCount(data[1..], s);
    }
  }

  lemma {:induction false} ActiveCount(data: seq<AgencyBooking>)
    ensures |Seqs.Filter(data, IsActive())| == CountStatus(data, Pending) + CountStatus(data, Confirmed)
  {
    if data != [] {
      ActiveCount(data[1..]);
    }
  }

  /** With non-negative amounts the revenue never falls below the base and grows with
      every completed event. */
  lemma RevenueAtLeastBase(prev: Stats, data: seq<AgencyBooking>)
    requires forall b :: b in data ==> b.totalAmount >= 0.0
    ensures CalculateStats(prev, data).totalRevenue >= BaseRevenue
  {
    var c := Seqs.Filter(data, HasStatus(Completed));
    Seqs.SumOfNonNegative(c, BookingAmount);
  }

  /** `bookings.map(b => b.id === id ? { ...b, status } : b)`. */
  function UpdateStatus(bookings: seq<AgencyBooking>, id: Id, status: Status): (r: seq<AgencyBooking>)
    ensures |r| == |bookings|
    ensures forall i :: 0 <= i < |r| && bookings[i].id == id ==> r[i] == bookings[i].(status := status)
    ensures forall i :: 0 <= i < |r| && bookings[i].id != id ==> r[i] == bookings[i]
  {
    if bookings == [] then []
    else [if bookings[0].id == id then bookings[0].(status := status) else bookings[0]] + UpdateStatus(bookings[1..], id, status)
  }

  /** A card of the new stage: a missing or empty customer name is "Unknown Client"
      and the event type is the package followed by " Event". */
  function NewLead(b: AgencyBooking): (l: Lead)
    ensures l.id == b.id && l.date == b.date && l.value == b.totalAmount && l.status == b.status
    ensures l.clientName == (if b.userName.Some? && b.userName.value != [] then b.userName.value else "Unknown Client")
    ensures l.eventType == b.packageType + " Event"
  {
    Lead(b.id, if b.userName.Some? && b.userName.value != [] then b.userName.value else "Unknown Client",
         b.packageType + " Event", b.date, b.totalAmount, b.status)
  }

  /** A card of the other stages: a missing or empty name is "Client" and the event
      type is the package. */
  function OtherLead(b: AgencyBooking): (l: Lead)
    ensures l.id == b.id && l.date == b.date && l.value == b.totalAmount && l.status == b.status
    ensures l.clientName == (if b.userName.Some? && b.userName.value != [] then b.userName.value else "Client")
    ensures l.eventType == b.packageType
  {
    Lead(b.id, if b.userName.Some? && b.userName.value != [] then b.userName.value else "Client",
         b.packageType, b.date, b.totalAmount, b.status)
  }

  function MapLeads(bookings: seq<AgencyBooking>, f: AgencyBooking -> Lead): (r: seq<Lead>)
    ensures |r| == |bookings|
    ensures forall i :: 0 <= i < |r| ==> r[i] == f(bookings[i])
  {
    if bookings == [] then [] else [f(bookings[0])] + MapLeads(bookings[1..], f)
  }

  /** `pipelineData`: PENDING bookings are new leads, CONFIRMED ones in progress and
      COMPLETED ones closed, each stage in booking order. */
  function Pipeline(bookings: seq<AgencyBooking>): (r: Leads)
    ensures r.newLeads == MapLeads(Seqs.Filter(bookings, HasStatus(Pending)), NewLead)
    ensures r.inProgress == MapLeads(Seqs.Filter(bookings, HasStatus(Confirmed)), OtherLead)
    ensures r.closed == MapLeads(Seqs.Filter(bookings, HasStatus(Completed)), OtherLead)
  {
    Leads(MapLeads(Seqs.Filter(bookings, HasStatus(Pending)), NewLead),
          MapLeads(Seqs.Filter(bookings, HasStatus(Confirmed)), OtherLead),
          MapLeads(Seqs.Filter(bookings, HasStatus(Completed)), OtherLead))
  }

  /** Each stage holds the statuses its name promises, so the stages are disjoint and
      a CANCELLED booking is on none of them. */
  lemma StagesByStatus(bookings: seq<AgencyBooking>)
    ensures forall l :: l in Pipeline(bookings).newLeads ==> l.status == Pending
    ensures forall l :: l in Pipeline(bookings).inProgress ==> l.status == Confirmed
    ensures forall l :: l in Pipeline(bookings).closed ==> l.status == Completed
  {
  }

  /** The stats agree with the board: active leads are the cards of the first two
      stages, completed events those of the last. */
  lemma StatsMatchPipeline(prev: Stats, bookings: seq<AgencyBooking>)
    ensures CalculateStats(prev, bookings).activeLeads ==
            |Pipeline(bookings).newLeads| + |Pipeline(bookings).inProgress|
    ensures CalculateStats(prev, bookings).completedEvents == |Pipeline(bookings).closed|
  {
    FilterCount(bookings, Pending);
    FilterCount(bookings, Confirmed);
    FilterCount(bookings, Completed);
  }

  /** The page state the modelled handlers touch. */
  class Dashboard {
    var bookings: seq<AgencyBooking>
    var stats: Stats

    /** The stats are those computed from the bookings shown. */
    predicate Consistent()
      reads this
    {
      stats == CalculateStats(stats, bookings)
    }

    constructor ()
      ensures bookings == [] && stats == InitialStats
      ensures Consistent()
    {
      bookings := [];
      stats := InitialStats;
    }

    /** `fetchBookings`: an ok response replaces the bookings and recomputes the stats;
        otherwise nothing changes. */
    method Load(data: seq<AgencyBooking>, ok: bool)
      modifies this
      ensures ok ==> bookings == data && stats == CalculateStats(old(stats), data)
      ensures !ok ==> bookings == old(bookings) && stats == old(stats)
      ensures old(Consistent()) ==> Consistent()
    {
      if ok {
        bookings := data;
        stats := CalculateStats(stats, data);
      }
    }

    /** The synchronous half of `handleStatusUpdate(id, newStatus)`: the bookings
        shown are copied as the snapshot, the change is shown at once and the stats
        are recomputed from it. */
    method BeginStatusUpdate(id: Id, newStatus: Status) returns (snapshot: seq<AgencyBooking>)
      modifies this
      ensures snapshot == old(bookings)
      ensures bookings == UpdateStatus(old(bookings), id, newStatus)
      ensures stats == CalculateStats(old(stats), bookings)
      ensures Consistent()
    {
      snapshot := bookings;
      var updatedBookings := UpdateStatus(bookings, id, newStatus);
      bookings := updatedBookings;
      stats := CalculateStats(stats, updatedBookings);
    }

    /** The half that runs once the PATCH request settles: a success leaves the page
        as it is; a failure puts the snapshot back, whatever was shown meanwhile, and
        recomputes the stats from it. */
    method ResolveStatusUpdate(snapshot: seq<AgencyBooking>, requestOk: bool)
      modifies this
      ensures requestOk ==> bookings == old(bookings) && stats == old(stats)
      ensures !requestOk ==> bookings == snapshot && stats == CalculateStats(old(stats), snapshot)
      ensures old(Consistent()) ==> Consistent()
    {
      if !requestOk {
        bookings := snapshot;
        stats := CalculateStats(stats, snapshot);
      }
    }

    /** `handleStatusUpdate(id, newStatus)` when no other update overlaps it: the
        change is shown at once; when the PATCH request fails (`requestOk` false)
        the snapshot taken first is put back and the stats are recomputed from it. */
    method HandleStatusUpdate(id: Id, newStatus: Status, requestOk: bool)
      modifies this
      ensures requestOk ==> bookings == UpdateStatus(old(bookings), id, newStatus) &&
                            stats == CalculateStats(old(stats), bookings)
      ensures !requestOk ==> bookings == old(bookings) && stats == CalculateStats(old(stats), old(bookings))
      ensures !requestOk && old(Consistent()) ==> stats == old(stats)
      ensures Consistent()
    {
      var originalBookings := BeginStatusUpdate(id, newStatus);
      ResolveStatusUpdate(originalBookings, requestOk);
    }
  }

  /** Two status updates that overlap: `b` is clicked while the request for `a` is
      still pending, `b`'s request succeeds and then `a`'s fails. Reverting to `a`'s
      snapshot also drops `b`'s change, so the page shows the bookings from before
      both clicks although the server holds `b`'s new status. */
  method OverlappingUpdatesLoseOne(d: Dashboard, a: Id, sa: Status, b: Id, sb: Status)
    modifies d
    ensures d.bookings == old(d.bookings)
    ensures forall i :: 0 <= i < |d.bookings| && d.bookings[i].id == b && d.bookings[i].status != sb ==>
              d.bookings[i].status != UpdateStatus(UpdateStatus(old(d.bookings), a, sa), b, sb)[i].status
  {
    var snapA := d.BeginStatusUpdate(a, sa);
    var later := d.bookings;
    var snapB := d.BeginStatusUpdate(b, sb);
    d.ResolveStatusUpdate(snapB, true);
    assert d.bookings == UpdateStatus(later, b, sb);
    d.ResolveStatusUpdate(snapA, false);
  }
}
