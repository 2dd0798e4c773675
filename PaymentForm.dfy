/**
 * The card-entry formatters and the logged-out guard of the mock checkout form
 * (src/components/StripePaymentForm.tsx). The card field re-formats its own value on
 * every keystroke, so idempotence of the formatters is what keeps the field stable.
 */
module PaymentForm {
  import opened Seqs
  import opened Text

  /** The cleaning both formatters start with: whitespace and then every non-digit is deleted,
      so exactly the ASCII digits remain (the whitespace pass removes nothing the digit pass
      would keep). */
  function Digits(s: string): (d: string)
    ensures |d| <= |s|
    ensures forall i :: 0 <= i < |d| ==> IsDigit(d[i])
  {
    Filter(s, IsDigit)
  }

  /** Cleaning keeps every digit of the input, as often as it occurs and in its order, and
      nothing else. */
  lemma DigitsSpec(s: string, c: char)
    ensures IsSubsequence(Digits(s), s)
    ensures multiset(Digits(s))[c] == if IsDigit(c) then multiset(s)[c] else 0
  {
    FilterCount(s, IsDigit, c);
    FilterIsSubsequence(s, IsDigit);
  }

  /** The string with its spaces deleted. */
  function RemoveSpaces(s: string): string {
    Filter(s, IsNotSpace)
  }

  predicate AllDigits(s: string) {
    forall i :: 0 <= i < |s| ==> IsDigit(s[i])
  }

  /** The digits the card formatter keeps: the first run of four to sixteen digits in the
      cleaned string, i.e. its first sixteen digits, or nothing when fewer than four remain. */
  function KeptDigits(value: string): string {
    var v := Digits(value);
    if |v| < 4 then "" else v[..Min(|v|, 16)]
  }

  /** Reference layout: four digits, one space, and so on; the last group has one to four. */
  function Group(d: string): string
    decreases |d|
  {
    if |d| <= 4 then d else d[..4] + " " + Group(d[4..])
  }

  /** The parts the formatting loop collects: the four characters from i = 0, 4, 8, ...,
      the last part possibly shorter. */
  function Chunks(d: string): seq<string>
    decreases |d|
  {
    if |d| == 0 then [] else if |d| <= 4 then [d] else [d[..4]] + Chunks(d[4..])
  }

  /** The parts joined with single spaces. */
  function JoinSpaces(parts: seq<string>): string {
    if |parts| == 0 then ""
    else if |parts| == 1 then parts[0]
    else parts[0] + " " + JoinSpaces(parts[1..])
  }

  /** What `formatCardNumber` returns: the raw input when fewer than four digits remain,
      otherwise the kept digits in groups of four. */
  function CardNumberFormat(value: string): string {
    var k := KeptDigits(value);
    if k == "" then value else Group(k)
  }

  /** One step of the loop: the chunk at i followed by the chunks after it. */
  lemma ChunksAt(m: string, i: nat)
    requires i < |m|
    ensures Chunks(m[i..]) == [m[i..Min(i + 4, |m|)]] + Chunks(m[Min(i + 4, |m|)..])
  {
    var s := m[i..];
    if |s| > 4 {
      assert s[..4] == m[i..i + 4];
      assert s[4..] == m[i + 4..];
    } else {
      assert Min(i + 4, |m|) == |m| && m[i..|m|] == s;
      assert m[|m|..] == [];
    }
  }

  /** Joining the chunks with spaces is the reference layout. */
  lemma {:induction false} JoinChunks(d: string)
    ensures JoinSpaces(Chunks(d)) == Group(d)
    decreases |d|
  {
    if |d| > 4 {
      JoinChunks(d[4..]);
      var rest := Chunks(d[4..]);
      assert rest != [];
      assert ([d[..4]] + rest)[1..] == rest;
    }
  }

  /** The card-number formatter, with its loop that collects four-digit parts. */
  method FormatCardNumber(value: string) returns (r: string)
    ensures r == CardNumberFormat(value)
  {
    var v := Digits(value);
    var firstMatch := if |v| >= 4 then v[..Min(|v|, 16)] else "";
    var parts: seq<string> := [];
    var i := 0;
    var len := |firstMatch|;
    while i < len
      invariant 0 <= i
      invariant parts + Chunks(firstMatch[Min(i, len)..]) == Chunks(firstMatch)
    {
      ChunksAt(firstMatch, i);
      parts := parts + [firstMatch[i..Min(i + 4, len)]];
      i := i + 4;
    }
    assert firstMatch[Min(i, len)..] == [];
    assert parts == Chunks(firstMatch);
    assert firstMatch == KeptDigits(value);
    if |parts| > 0 {
      JoinChunks(firstMatch);
      r := JoinSpaces(parts);
    } else {
      r := value;
    }
  }

  /** Grouped digits: a space exactly at every fifth position, a digit everywhere else. */
  lemma {:induction false} GroupLayout(d: string, i: int)
    requires AllDigits(d)
    requires 0 <= i < |Group(d)|
    ensures Group(d)[i] == ' ' <==> i % 5 == 4
    ensures i % 5 != 4 ==> IsDigit(Group(d)[i])
    decreases |d|
  {
    if |d| > 4 {
      var g := Group(d);
      assert g == d[..4] + " " + Group(d[4..]);
      if i >= 5 {
        GroupLayout(d[4..], i - 5);
        assert g[i] == Group(d[4..])[i - 5];
      } else if i < 4 {
        assert g[i] == d[i];
      }
    }
  }

  /** A grouped string of n > 0 digits has n + (n-1)/4 characters and never ends in a space. */
  lemma {:induction false} GroupLength(d: string)
    requires |d| > 0
    ensures |Group(d)| == |d| + (|d| - 1) / 4
    ensures |Group(d)| % 5 != 0
    decreases |d|
  {
    if |d| > 4 {
      GroupLength(d[4..]);
    }
  }

  /** Deleting the spaces from a grouped string gives back the digits, and so does
      deleting every non-digit. */
  lemma {:induction false} GroupStrip(d: string)
    requires AllDigits(d)
    ensures RemoveSpaces(Group(d)) == d
    ensures Digits(Group(d)) == d
    decreases |d|
  {
    if |d| <= 4 {
      FilterKeepsAll(d, IsNotSpace);
      FilterKeepsAll(d, IsDigit);
    } else {
      GroupStrip(d[4..]);
      var head := d[..4];
      FilterKeepsAll(head, IsNotSpace);
      FilterKeepsAll(head, IsDigit);
      FilterConcat(head + " ", Group(d[4..]), IsNotSpace);
      FilterConcat(head, " ", IsNotSpace);
      FilterConcat(head + " ", Group(d[4..]), IsDigit);
      FilterConcat(head, " ", IsDigit);
      assert d == head + d[4..];
    }
  }

  /** Everything `formatCardNumber` promises about its output. */
  lemma CardNumberFormatSpec(value: string)
    ensures |Digits(value)| < 4 ==> CardNumberFormat(value) == value
    ensures |Digits(value)| >= 4 ==>
      var r := CardNumberFormat(value);
      && RemoveSpaces(r) == Digits(value)[..Min(|Digits(value)|, 16)]
      && Digits(r) == Digits(value)[..Min(|Digits(value)|, 16)]
      && 4 <= |r| <= 19
      && r[|r| - 1] != ' '
      && (forall i :: 0 <= i < |r| ==> (r[i] == ' ' <==> i % 5 == 4))
      && (forall i :: 0 <= i < |r| && i % 5 != 4 ==> IsDigit(r[i]))
  {
    var v := Digits(value);
    if |v| >= 4 {
      var k := KeptDigits(value);
      var r := CardNumberFormat(value);
      assert AllDigits(k);
      GroupStrip(k);
      GroupLength(k);
      forall i | 0 <= i < |r| ensures (r[i] == ' ' <==> i % 5 == 4) && (i % 5 != 4 ==> IsDigit(r[i])) {
        GroupLayout(k, i);
      }
      GroupLayout(k, |r| - 1);
    }
  }

  /** Re-formatting a formatted card number changes nothing. */
  lemma CardNumberFormatIdempotent(value: string)
    ensures CardNumberFormat(CardNumberFormat(value)) == CardNumberFormat(value)
  {
    var k := KeptDigits(value);
    if k != "" {
      assert AllDigits(k);
      GroupStrip(k);
      assert KeptDigits(Group(k)) == k;
    }
  }

  /** `formatExpiry`: up to two digits as typed, otherwise `MM/YY` from the first four digits. */
  function FormatExpiry(value: string): (r: string)
    ensures |r| <= 5
    ensures Digits(r) == Digits(value)[..Min(|Digits(value)|, 4)]
    ensures forall i :: 0 <= i < |r| ==> (r[i] == '/' <==> i == 2 && |Digits(value)| > 2)
    ensures forall i :: 0 <= i < |r| && r[i] != '/' ==> IsDigit(r[i])
    ensures |Digits(value)| <= 2 ==> r == Digits(value)
  {
    var v := Digits(value);
    if |v| > 2 then
      var mm, yy := v[..2], v[2..Min(|v|, 4)];
      assert AllDigits(mm) && AllDigits(yy);
      FilterKeepsAll(mm, IsDigit);
      FilterKeepsAll(yy, IsDigit);
      FilterConcat(mm + "/", yy, IsDigit);
      FilterConcat(mm, "/", IsDigit);
      assert v[..Min(|v|, 4)] == mm + yy;
      mm + "/" + yy
    else
      FilterKeepsAll(v, IsDigit);
      v
  }

  /** Re-formatting a formatted expiry changes nothing. */
  lemma FormatExpiryIdempotent(value: string)
    ensures FormatExpiry(FormatExpiry(value)) == FormatExpiry(value)
  {
    var v := Digits(value);
    var r := FormatExpiry(value);
    var w := Digits(r);
    assert w == v[..Min(|v|, 4)];
    if |v| > 2 {
      assert w[..2] == v[..2];
      assert w[2..Min(|w|, 4)] == v[2..Min(|v|, 4)];
    }
  }

  /** The processing flag and the observable effects of `handleSubmit`. */
  class CheckoutForm {
    var isProcessing: bool
    /** Calls made to the `onPaymentComplete` callback. */
    var paymentsCompleted: nat
    /** Redirects to the login page made by the guard. */
    var loginRedirects: nat

    constructor ()
      ensures !isProcessing && paymentsCompleted == 0 && loginRedirects == 0
    {
      isProcessing, paymentsCompleted, loginRedirects := false, 0, 0;
    }

    /** The synchronous part of `handleSubmit`: a logged-out user is sent to the login page
        and nothing starts; otherwise the form enters the processing state. */
    method HandleSubmit(isLoggedIn: bool) returns (started: bool)
      modifies this
      ensures started == isLoggedIn
      ensures !isLoggedIn ==> isProcessing == old(isProcessing) && loginRedirects == old(loginRedirects) + 1
      ensures isLoggedIn ==> isProcessing && loginRedirects == old(loginRedirects)
      ensures paymentsCompleted == old(paymentsCompleted)
    {
      if !isLoggedIn {
        loginRedirects := loginRedirects + 1;
        return false;
      }
      isProcessing := true;
      started := true;
    }

    /** The mount-time effect: a logged-out user is sent to the login page. */
    method Mounted(isLoggedIn: bool)
      modifies this`loginRedirects
      ensures loginRedirects == old(loginRedirects) + (if isLoggedIn then 0 else 1)
    {
      if !isLoggedIn {
        loginRedirects := loginRedirects + 1;
      }
    }

    /** The PayPal, Apple Pay and Google Pay buttons: processing starts with no login check of
        its own and settles like a card payment. */
    method OtherPaymentMethod()
      modifies this`isProcessing
      ensures isProcessing
    {
      isProcessing := true;
    }

    /** The continuation after the simulated two-second gateway delay: the callback runs
        once and the `finally` clause clears the processing flag. */
    method PaymentSettled()
      requires isProcessing
      modifies this
      ensures paymentsCompleted == old(paymentsCompleted) + 1
      ensures !isProcessing && loginRedirects == old(loginRedirects)
    {
      paymentsCompleted := paymentsCompleted + 1;
      isProcessing := false;
    }
  }

  /** A logged-out submit never reaches the payment callback, whatever the form's state. */
  method LoggedOutSubmitCompletesNothing(form: CheckoutForm)
    modifies form
    ensures form.paymentsCompleted == old(form.paymentsCompleted)
    ensures form.isProcessing == old(form.isProcessing)
  {
    var started := form.HandleSubmit(false);
    assert !started;
  }

  /** The other payment buttons complete a payment without consulting the login state; only
      the form's own rendering keeps them from a logged-out user. */
  method OtherPaymentCompletes(form: CheckoutForm)
    modifies form
    ensures form.paymentsCompleted == old(form.paymentsCompleted) + 1
    ensures !form.isProcessing && form.loginRedirects == old(form.loginRedirects)
  {
    form.OtherPaymentMethod();
    form.PaymentSettled();
  }
}
