/** The registration wizard's last step: the total carried over from the payment
    step, the amount paid now, the remaining balance or change it leaves, the rupiah
    formatting of amount fields, and the PAYLATER rule. */
module PaymentMethod {
  import opened Common
  import PaymentForm

  /** How a registration is paid. */
  datatype RegMethod = Cash | Transfer | Paylater

  /** The name the request carries for each method. */
  function MethodName(m: RegMethod): (name: string)
    ensures name in {"CASH", "TRANSFER", "PAYLATER"}
  {
    match m
    case Cash => "CASH"
    case Transfer => "TRANSFER"
    case Paylater => "PAYLATER"
  }

  lemma MethodNamesDistinct(a: RegMethod, b: RegMethod)
    ensures MethodName(a) == MethodName(b) <==> a == b
  {
  }

  // ---------------------------------------------------------------- digits

  predicate IsDigit(c: char)
  {
    '0' <= c <= '9'
  }

  predicate AllDigits(s: string)
  {
    forall i :: 0 <= i < |s| ==> IsDigit(s[i])
  }

  /** `s.replace(/\D/g, "")`: the digits of `s`, in order. */
  function Digits(s: string): (d: string)
    ensures AllDigits(d) && |d| <= |s|
    ensures AllDigits(s) ==> d == s
  {
    if s == [] then []
    else
      var last := s[|s| - 1];
      var rest := Digits(s[..|s| - 1]);
      if IsDigit(last) then rest + [last] else rest
  }

  lemma {:induction false} DigitsConcat(a: string, b: string)
    ensures Digits(a + b) == Digits(a) + Digits(b)
    decreases |b|
  {
    if b == [] {
      assert a + b == a;
    } else {
      var init := b[..|b| - 1];
      assert (a + b)[..|a + b| - 1] == a + init;
      assert (a + b)[|a + b| - 1] == b[|b| - 1];
      DigitsConcat(a, init);
    }
  }

  function DigitValue(c: char): nat
    requires IsDigit(c)
  {
    c as int - '0' as int
  }

  function DigitChar(n: nat): (c: char)
    requires n < 10
    ensures IsDigit(c) && DigitValue(c) == n
  {
    ('0' as int + n) as char
  }

  /** `Number(d)` for a text of digits only; the empty text is 0. */
  function DigitsValue(d: string): nat
    requires AllDigits(d)
  {
    if d == [] then 0 else DigitsValue(d[..|d| - 1]) * 10 + DigitValue(d[|d| - 1])
  }

  /** `n.toString()` for a whole number: its decimal digits, with no leading zero. */
  function NatToDigits(n: nat): (d: string)
    ensures AllDigits(d) && |d| > 0
    ensures |d| > 1 ==> d[0] != '0'
    ensures d == "0" <==> n == 0
  {
    if n < 10 then [DigitChar(n)]
    else
      var d := NatToDigits(n / 10) + [DigitChar(n % 10)];
      assert |d| > 1;
      d
  }

  /** Reading back the decimal digits of `n` gives `n`. */
  lemma {:induction false} NatToDigitsValue(n: nat)
    ensures DigitsValue(NatToDigits(n)) == n
    decreases n
  {
    if n >= 10 {
      var d := NatToDigits(n);
      assert d[..|d| - 1] == NatToDigits(n / 10);
      NatToDigitsValue(n / 10);
    }
  }

  /** `Number(text)`: a text of digits only (the empty text being 0); any other text is
      not a number, which is `None`. */
  function NumberOf(text: string): (v: Option<nat>)
    ensures v.Some? <==> AllDigits(text)
    ensures text == "" ==> v == Some(0)
  {
    if AllDigits(text) then Some(DigitsValue(text)) else None
  }

  // -------------------------------------------------------- rupiah display

  /** The id-ID rendering of a whole number: its digits in groups of three from the
      right, separated by '.'. */
  function IdFormat(n: nat): string
  {
    Group(NatToDigits(n))
  }

  function Group(d: string): (g: string)
    ensures |g| >= |d|
  {
    if |d| <= 3 then d else Group(d[..|d| - 3]) + "." + d[|d| - 3..]
  }

  /** The shared tail of `formatCurrency`: empty or "0" shows "0", anything else its
      number in id-ID form. */
  function FormatText(numValue: string): (r: string)
    requires AllDigits(numValue)
    ensures numValue == "" || numValue == "0" ==> r == "0"
    ensures r == IdFormat(DigitsValue(numValue))
  {
    if numValue == "" || numValue == "0" then "0" else IdFormat(DigitsValue(numValue))
  }

  /** `formatCurrency` of a typed text: only its digits count. */
  function FormatCurrency(s: string): (r: string)
    ensures Digits(s) == "" || Digits(s) == "0" ==> r == "0"
    ensures r == IdFormat(DigitsValue(Digits(s)))
  {
    FormatText(Digits(s))
  }

  /** `formatCurrency` of a non-negative number. */
  function FormatAmount(n: nat): (r: string)
    ensures n == 0 ==> r == "0"
    ensures r == IdFormat(n)
  {
    NatToDigitsValue(n);
    FormatText(NatToDigits(n))
  }

  /** `parseFormattedNumber`: every '.' deleted, everything else kept in order. */
  function ParseFormattedNumber(s: string): (r: string)
    ensures |r| <= |s|
    ensures forall i :: 0 <= i < |r| ==> r[i] != '.'
    ensures AllDigits(s) ==> r == s
  {
    if s == [] then []
    else
      var rest := ParseFormattedNumber(s[..|s| - 1]);
      if s[|s| - 1] == '.' then rest else rest + [s[|s| - 1]]
  }

  lemma {:induction false} ParseConcat(a: string, b: string)
    ensures ParseFormattedNumber(a + b) == ParseFormattedNumber(a) + ParseFormattedNumber(b)
    decreases |b|
  {
    if b == [] {
      assert a + b == a;
    } else {
      var init := b[..|b| - 1];
      assert (a + b)[..|a + b| - 1] == a + init;
      assert (a + b)[|a + b| - 1] == b[|b| - 1];
      ParseConcat(a, init);
    }
  }

  /** Deleting the separators of a grouped number gives back its digits, and so does
      keeping only its digits. */
  lemma {:induction false} UngroupGroup(d: string)
    requires AllDigits(d)
    ensures ParseFormattedNumber(Group(d)) == d
    ensures Digits(Group(d)) == d
    decreases |d|
  {
    if |d| > 3 {
      var head := d[..|d| - 3];
      var tail := d[|d| - 3..];
      assert d == head + tail;
      UngroupGroup(head);
      ParseConcat(Group(head) + ".", tail);
      ParseConcat(Group(head), ".");
      DigitsConcat(Group(head) + ".", tail);
      DigitsConcat(Group(head), ".");
    }
  }

  /** What an amount field stores is the parsed form of what it displays: the digits
      typed, without leading zeros, and "0" when none were typed. */
  lemma FormatParseRoundTrip(s: string)
    ensures ParseFormattedNumber(FormatCurrency(s)) == NatToDigits(DigitsValue(Digits(s)))
    ensures NumberOf(ParseFormattedNumber(FormatCurrency(s))) == Some(DigitsValue(Digits(s)))
  {
    var v := DigitsValue(Digits(s));
    UngroupGroup(NatToDigits(v));
    NatToDigitsValue(v);
  }

  /** Displaying the stored text again shows the same thing. */
  lemma DisplayStable(s: string)
    ensures FormatCurrency(ParseFormattedNumber(FormatCurrency(s))) == FormatCurrency(s)
  {
    FormatParseRoundTrip(s);
    NatToDigitsValue(DigitsValue(Digits(s)));
  }

  // ------------------------------------------------------------- amounts

  /** The total owed: nothing without a payment form, otherwise the same line-by-line
      total as the payment step shows. */
  method CalculateTotalFromPaymentForm(paymentForm: Option<PaymentForm.FormData>) returns (total: int)
    ensures paymentForm.None? ==> total == 0
    ensures paymentForm.Some? ==> total == PaymentForm.Total(paymentForm.value)
  {
    if paymentForm.None? {
      return 0;
    }
    total := PaymentForm.FormTotal(paymentForm.value);
  }

  /** `amountPaid ? Number(amountPaid) : 0`; the guard changes nothing, since `Number("")` is 0. */
  function PaidAmount(amountPaid: string): (paid: Option<nat>)
    ensures amountPaid == "" ==> paid == Some(0)
    ensures paid == NumberOf(amountPaid)
  {
    if amountPaid == "" then Some(0) else NumberOf(amountPaid)
  }

  /** What is left to pay; not a number when the amount paid is not. */
  function Remaining(total: int, amountPaid: string): (r: Option<int>)
    ensures r.Some? <==> PaidAmount(amountPaid).Some?
    ensures r.Some? ==> r.value == total - PaidAmount(amountPaid).value
  {
    var paid := PaidAmount(amountPaid);
    if paid.Some? then Some(total - paid.value) else None
  }

  /** The last row of the summary card. */
  datatype Balance = Outstanding(amount: nat) | Change(amount: nat) | Lunas | NotANumber

  /** Exactly one reading applies: a balance still due, change to give back, or settled. */
  function Classify(remaining: Option<int>): (b: Balance)
    ensures b.NotANumber? <==> remaining.None?
    ensures b.Outstanding? <==> remaining.Some? && remaining.value > 0
    ensures b.Change? <==> remaining.Some? && remaining.value < 0
    ensures b.Lunas? <==> remaining == Some(0)
    ensures b.Outstanding? ==> b.amount == remaining.value
    ensures b.Change? ==> b.amount == -remaining.value
  {
    if remaining.None? then NotANumber
    else if remaining.value > 0 then Outstanding(remaining.value)
    else if remaining.value < 0 then Change(-remaining.value)
    else Lunas
  }

  function LabelText(b: Balance): (text: string)
    ensures b.Outstanding? ==> text == "Sisa Tagihan:"
    ensures b.Change? ==> text == "Kembalian:"
    ensures b.Lunas? || b.NotANumber? ==> text == "Status:"
  {
    match b
    case Outstanding(_) => "Sisa Tagihan:"
    case Change(_) => "Kembalian:"
    case _ => "Status:"
  }

  /** "LUNAS" when nothing is left, otherwise the size of the balance or the change. */
  function ValueText(b: Balance): (text: string)
    ensures b.Lunas? ==> text == "LUNAS"
    ensures b.Outstanding? || b.Change? ==> text == "Rp " + FormatAmount(b.amount)
    ensures b.NotANumber? ==> text == "Rp NaN"
  {
    match b
    case Lunas => "LUNAS"
    case NotANumber => "Rp NaN"
    case Outstanding(a) => "Rp " + FormatAmount(a)
    case Change(a) => "Rp " + FormatAmount(a)
  }

  /** A non-zero remainder is shown by its size, whichever way it goes, and the label
      tells the two directions apart. */
  lemma RemainderShownBySize(total: int, amountPaid: string)
    requires Remaining(total, amountPaid).Some? && Remaining(total, amountPaid).value != 0
    ensures var r := Remaining(total, amountPaid).value;
            var b := Classify(Some(r));
            && ValueText(b) == "Rp " + FormatAmount(if r < 0 then -r else r)
            && (LabelText(b) == "Sisa Tagihan:" <==> r > 0)
            && (LabelText(b) == "Kembalian:" <==> r < 0)
  {
  }

  /** Paying exactly the total settles it. */
  lemma ExactPaymentSettles(total: nat)
    ensures Classify(Remaining(total, NatToDigits(total))) == Lunas
  {
    NatToDigitsValue(total);
  }

  // --------------------------------------------------------------- PAYLATER

  /** The PAYLATER effect: the new amount it asks for, if any. */
  function PaylaterEffect(selected: Option<RegMethod>, amountPaid: string, hasCallback: bool): (change: Option<string>)
    ensures change.Some? <==> selected == Some(Paylater) && hasCallback && amountPaid != "0"
    ensures change.Some? ==> change.value == "0"
  {
    if selected == Some(Paylater) && hasCallback && amountPaid != "0" then Some("0") else None
  }

  /** After the effect has run once, PAYLATER pays nothing now and the effect is quiet. */
  lemma PaylaterSettlesAtZero(amountPaid: string, total: int)
    ensures var change := PaylaterEffect(Some(Paylater), amountPaid, true);
            var next := if change.Some? then change.value else amountPaid;
            && next == "0"
            && PaylaterEffect(Some(Paylater), next, true).None?
            && PaidAmount(next) == Some(0)
            && Remaining(total, next) == Some(total)
  {
    var change := PaylaterEffect(Some(Paylater), amountPaid, true);
    var next := if change.Some? then change.value else amountPaid;
    assert DigitsValue("0"[..0]) == 0;
  }
}
