/** The payment history of one invoice: the badges, the verification column, and the
    summary that counts verified payments only and flags pending ones. */
module PaymentHistory {
  import opened Common

  /** One row of the history as the server lists it; `status` and `paymentMethod`
      are the raw column texts. */
  datatype Payment = Payment(
    paymentCode: string,
    amount: int,
    paymentMethod: string,
    status: string,
    verifiedByName: Option<string>)

  /** The badge text for a payment method; an unknown method shows as itself. */
  function MethodLabel(m: string): (text: string)
    ensures m == "CASH" ==> text == "Tunai"
    ensures m == "BANK_TRANSFER" ==> text == "Transfer Bank"
    ensures m != "CASH" && m != "BANK_TRANSFER" ==> text == m
  {
    if m == "CASH" then "Tunai"
    else if m == "BANK_TRANSFER" then "Transfer Bank"
    else m
  }

  /** The badge text for a payment status; an unknown status shows as itself. */
  function StatusLabel(s: string): (text: string)
    ensures s == "VERIFIED" ==> text == "Terverifikasi"
    ensures s == "PENDING" ==> text == "Menunggu Verifikasi"
    ensures s == "REJECTED" ==> text == "Ditolak"
    ensures s != "VERIFIED" && s != "PENDING" && s != "REJECTED" ==> text == s
  {
    if s == "VERIFIED" then "Terverifikasi"
    else if s == "PENDING" then "Menunggu Verifikasi"
    else if s == "REJECTED" then "Ditolak"
    else s
  }

  datatype VerificationCell = VerifiedBy(name: string) | NotYetVerified | NoVerifier

  /** The verifier column: the verifier's name for a verified payment that has one,
      a reminder for a pending one, and a dash for everything else. */
  function Verification(p: Payment): (c: VerificationCell)
    ensures c.VerifiedBy? <==> p.status == "VERIFIED" && p.verifiedByName.Some? && p.verifiedByName.value != ""
    ensures c.VerifiedBy? ==> c.name == p.verifiedByName.value
    ensures c == NotYetVerified <==> p.status == "PENDING"
    ensures c == NoVerifier <==> p.status != "PENDING" && !(p.status == "VERIFIED" && p.verifiedByName.Some? && p.verifiedByName.value != "")
  {
    if p.status == "VERIFIED" && p.verifiedByName.Some? && p.verifiedByName.value != "" then VerifiedBy(p.verifiedByName.value)
    else if p.status == "PENDING" then NotYetVerified
    else NoVerifier
  }

  /** The payments whose status is VERIFIED, in their listed order: every verified
      payment is kept, and nothing else. */
  function VerifiedOnly(ps: seq<Payment>): (vs: seq<Payment>)
    ensures |vs| <= |ps|
    ensures forall i :: 0 <= i < |vs| ==> vs[i].status == "VERIFIED"
    ensures forall i :: 0 <= i < |ps| && ps[i].status == "VERIFIED" ==> ps[i] in vs
    ensures multiset(vs) <= multiset(ps)
  {
    if ps == [] then []
    else
      var front := ps[..|ps| - 1];
      var last := ps[|ps| - 1];
      var init := VerifiedOnly(front);
      assert ps == front + [last];
      assert forall i :: 0 <= i < |front| ==> front[i] == ps[i];
      if last.status == "VERIFIED" then init + [last] else init
  }

  /** The filter keeps the listed order: a history of verified payments only is kept whole. */
  lemma {:induction false} AllVerifiedKept(ps: seq<Payment>)
    requires forall i :: 0 <= i < |ps| ==> ps[i].status == "VERIFIED"
    ensures VerifiedOnly(ps) == ps
    decreases |ps|
  {
    if ps != [] {
      var front := ps[..|ps| - 1];
      assert ps == front + [ps[|ps| - 1]];
      AllVerifiedKept(front);
    }
  }

  function Amounts(ps: seq<Payment>): (xs: seq<int>)
    ensures |xs| == |ps|
    ensures forall i :: 0 <= i < |ps| ==> xs[i] == ps[i].amount
  {
    if ps == [] then [] else Amounts(ps[..|ps| - 1]) + [ps[|ps| - 1].amount]
  }

  /** "Total Pembayaran Tercatat": the sum of the verified amounts. */
  function RecordedTotal(ps: seq<Payment>): int
  {
    Sum(Amounts(VerifiedOnly(ps)))
  }

  /** Appending a payment adds its amount to the total when it is verified and nothing otherwise. */
  lemma {:induction false} RecordedTotalAppend(ps: seq<Payment>, p: Payment)
    ensures RecordedTotal(ps + [p]) == RecordedTotal(ps) + (if p.status == "VERIFIED" then p.amount else 0)
  {
    assert (ps + [p])[..|ps + [p]| - 1] == ps;
    var vs := VerifiedOnly(ps);
    if p.status == "VERIFIED" {
      assert VerifiedOnly(ps + [p]) == vs + [p];
      assert Amounts(vs + [p]) == Amounts(vs) + [p.amount] by {
        assert (vs + [p])[..|vs + [p]| - 1] == vs;
      }
      SumAppend(Amounts(vs), p.amount);
    }
  }

  /** A pending or rejected payment never changes the recorded total. */
  lemma UnverifiedLeavesTotal(ps: seq<Payment>, p: Payment)
    requires p.status == "PENDING" || p.status == "REJECTED"
    ensures RecordedTotal(ps + [p]) == RecordedTotal(ps)
  {
    RecordedTotalAppend(ps, p);
  }

  /** When every amount is non-negative, the recorded total is at most the sum of every
      listed amount, and equals it exactly when every payment is verified. */
  lemma {:induction false} RecordedTotalBounded(ps: seq<Payment>)
    requires forall i :: 0 <= i < |ps| ==> ps[i].amount >= 0
    ensures 0 <= RecordedTotal(ps) <= Sum(Amounts(ps))
    ensures (forall i :: 0 <= i < |ps| ==> ps[i].status == "VERIFIED") ==> RecordedTotal(ps) == Sum(Amounts(ps))
    decreases |ps|
  {
    if forall i :: 0 <= i < |ps| ==> ps[i].status == "VERIFIED" {
      AllVerifiedKept(ps);
    }
    if ps != [] {
      var init := ps[..|ps| - 1];
      var last := ps[|ps| - 1];
      assert ps == init + [last];
      RecordedTotalBounded(init);
      RecordedTotalAppend(init, last);
      assert Amounts(ps) == Amounts(init) + [last.amount];
      SumAppend(Amounts(init), last.amount);
    }
  }

  /** The footnote about pending payments is shown when some payment is still pending. */
  function PendingNote(ps: seq<Payment>): (shown: bool)
    ensures shown <==> exists i :: 0 <= i < |ps| && ps[i].status == "PENDING"
  {
    if ps == [] then false
    else
      var rest := PendingNote(ps[..|ps| - 1]);
      assert forall i :: 0 <= i < |ps| - 1 ==> ps[..|ps| - 1][i] == ps[i];
      rest || ps[|ps| - 1].status == "PENDING"
  }

  /** The summary card appears only for a non-empty history. */
  predicate SummaryShown(ps: seq<Payment>)
  {
    |ps| > 0
  }

  /** The dialog draws nothing at all without an invoice. */
  predicate Rendered(hasInvoice: bool)
  {
    hasInvoice
  }
}
