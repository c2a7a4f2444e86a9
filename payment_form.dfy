/** The checkout's payment summary: 18% GST on the subtotal and a deposit of a
    quarter of the total. */
module PaymentForm {

  datatype Summary = Summary(subtotal: real, gst: real, total: real, deposit: real)

  /** `gst`, `total` and `deposit` for a subtotal. */
  function Compute(subtotal: real): (s: Summary)
    ensures s.subtotal == subtotal
    ensures s.gst == 0.18 * subtotal
    ensures s.total == s.subtotal + s.gst && s.total == 1.18 * subtotal
    ensures s.deposit == 0.25 * s.total && s.deposit == 0.295 * subtotal
  {
    var gst := subtotal * 0.18;
    var total := subtotal + gst;
    Summary(subtotal, gst, total, total * 0.25)
  }

  /** For a non-negative subtotal the deposit is part of the total and the total
      covers the subtotal. */
  lemma Bounds(subtotal: real)
    requires subtotal >= 0.0
    ensures 0.0 <= Compute(subtotal).deposit <= Compute(subtotal).total
    ensures subtotal <= Compute(subtotal).total
  {
  }
}
