/** The order form (app/components/OrderForm.tsx): the quantity typed as
    text and parsed with `parseInt(...) || 0`, the order total and the
    largest affordable quantity it displays, the submit check that either
    sets an error or hands an order to the caller, and the "Max" button.
    The React state the form keeps (action, quantity text, error) is a
    `Form` value; each handler returns the next one. */
module OrderForm {
  import opened Types
  import opened Numeric
  import opened Wrappers
  import Utils
  import Storage

  datatype Action = BuyAction | SellAction

  datatype Form = Form(action: Action, quantity: string, error: string)

  /** What `onExecute` is called with. */
  datatype Order = Order(action: Action, quantity: int)

  /** The form after a submit, and the order handed over, if any. */
  datatype Submitted = Submitted(form: Form, executed: Option<Order>)

  const InvalidQuantity: string := "Please enter a valid quantity"
  const InsufficientFunds: string := "Insufficient funds"
  const InsufficientShares: string := "Insufficient shares"

  // ---------------------------------------------------------------------
  // Quantity text

  predicate IsDigit(c: char) {
    '0' <= c <= '9'
  }

  /** The white space and line terminators `parseInt` skips. */
  predicate IsSpace(c: char) {
    c == ' ' || c == '\t' || c == '\n' || c == '\r' || c == '\U{000B}' || c == '\U{000C}'
    || c == '\U{00A0}' || c == '\U{1680}' || '\U{2000}' <= c <= '\U{200A}' || c == '\U{2028}'
    || c == '\U{2029}' || c == '\U{202F}' || c == '\U{205F}' || c == '\U{3000}' || c == '\U{FEFF}'
  }

  predicate IsHexDigit(c: char) {
    IsDigit(c) || 'a' <= c <= 'f' || 'A' <= c <= 'F'
  }

  function HexDigitValue(c: char): (d: int)
    requires IsHexDigit(c)
    ensures 0 <= d < 16
  {
    if IsDigit(c) then c as int - '0' as int
    else if 'a' <= c <= 'f' then c as int - 'a' as int + 10
    else c as int - 'A' as int + 10
  }

  function SkipSpaces(s: string): (r: string)
    ensures |r| <= |s| && r == s[|s| - |r|..]
    ensures |r| > 0 ==> !IsSpace(r[0])
    decreases |s|
  {
    if |s| > 0 && IsSpace(s[0]) then SkipSpaces(s[1..]) else s
  }

  /** The length of the run of digits `s` starts with. */
  function DigitRun(s: string): (k: nat)
    ensures k <= |s|
    ensures forall i :: 0 <= i < k ==> IsDigit(s[i])
    ensures k < |s| ==> !IsDigit(s[k])
    decreases |s|
  {
    if |s| > 0 && IsDigit(s[0]) then 1 + DigitRun(s[1..]) else 0
  }

  /** The number a string of decimal digits denotes. */
  function DigitsValue(digits: string): (n: nat)
    requires forall i :: 0 <= i < |digits| ==> IsDigit(digits[i])
    decreases |digits|
  {
    if |digits| == 0 then 0
    else
      var last := digits[|digits| - 1];
      assert IsDigit(last);
      10 * DigitsValue(digits[..|digits| - 1]) + (last as int - '0' as int)
  }

  /** `parseInt(text) || 0`: leading white space, an optional sign and the
      digits that follow, up to the first character that is not one, read
      in base 16 after a `0x` or `0X` prefix and in base 10 otherwise; text
      with no such digits is NaN, which `|| 0` turns into 0. */
  function ParseQuantity(text: string): int {
    var t := SkipSpaces(text);
    var negative := |t| > 0 && t[0] == '-';
    var body := if |t| > 0 && (t[0] == '-' || t[0] == '+') then t[1..] else t;
    var v: int := if HasHexPrefix(body) then LeadingHexValue(body[2..]) else LeadingValue(body);
    if negative then -v else v
  }

  predicate HasHexPrefix(s: string) {
    |s| >= 2 && s[0] == '0' && (s[1] == 'x' || s[1] == 'X')
  }

  /** The length of the run of hexadecimal digits `s` starts with. */
  function HexRun(s: string): (k: nat)
    ensures k <= |s|
    ensures forall i :: 0 <= i < k ==> IsHexDigit(s[i])
    ensures k < |s| ==> !IsHexDigit(s[k])
    decreases |s|
  {
    if |s| > 0 && IsHexDigit(s[0]) then 1 + HexRun(s[1..]) else 0
  }

  /** The number a string of hexadecimal digits denotes. */
  function HexDigitsValue(digits: string): (n: nat)
    requires forall i :: 0 <= i < |digits| ==> IsHexDigit(digits[i])
    decreases |digits|
  {
    if |digits| == 0 then 0
    else
      var last := digits[|digits| - 1];
      assert IsHexDigit(last);
      16 * HexDigitsValue(digits[..|digits| - 1]) + HexDigitValue(last)
  }

  /** The value of the hexadecimal digits `s` starts with; 0 when there are
      none. */
  function LeadingHexValue(s: string): nat {
    var k := HexRun(s);
    assert forall i :: 0 <= i < k ==> IsHexDigit(s[..k][i]);
    HexDigitsValue(s[..k])
  }

  /** The value of the digits `s` starts with; 0 when there are none. */
  function LeadingValue(s: string): nat {
    var k := DigitRun(s);
    assert forall i :: 0 <= i < k ==> IsDigit(s[..k][i]);
    DigitsValue(s[..k])
  }

  function DigitChar(d: int): (c: char)
    requires 0 <= d < 10
    ensures IsDigit(c) && c as int - '0' as int == d
  {
    (d + '0' as int) as char
  }

  /** `toString` of a non-negative whole number. */
  function DecimalString(n: nat): (s: string)
    ensures |s| > 0 && forall i :: 0 <= i < |s| ==> IsDigit(s[i])
    decreases n
  {
    if n < 10 then [DigitChar(n)] else DecimalString(n / 10) + [DigitChar(n % 10)]
  }

  /** `toString` of a whole number. */
  function NumberString(n: int): string {
    if n < 0 then "-" + DecimalString(-n) else DecimalString(n)
  }

  /** Reading the digits `toString` writes gives the number back. */
  lemma {:induction false} DecimalStringValue(n: nat)
    ensures DigitsValue(DecimalString(n)) == n
    decreases n
  {
    if n >= 10 {
      var s := DecimalString(n);
      DecimalStringValue(n / 10);
      assert s[..|s| - 1] == DecimalString(n / 10);
    }
  }

  /** Parsing undoes `toString`: the quantity text the "Max" button writes
      reads back as the number it wrote. */
  lemma ParseNumberString(n: int)
    ensures ParseQuantity(NumberString(n)) == n
  {
    var m := if n < 0 then -n else n;
    var digits := DecimalString(m);
    LeadingValueOfDigits(digits);
    DecimalStringValue(m);
    var s := NumberString(n);
    assert !IsSpace(s[0]);
    assert SkipSpaces(s) == s;
    assert !HasHexPrefix(digits) by {
      if |digits| >= 2 {
        assert IsDigit(digits[1]);
      }
    }
    if n < 0 {
      assert s[1..] == digits;
    } else {
      assert s[0] != '-' && s[0] != '+';
    }
  }

  /** `parseInt` stops at the first character that is not a digit. */
  lemma ParseTrailingTextExample()
    ensures ParseQuantity("12abc") == 12
  {
    var t := "12abc";
    assert !IsSpace(t[0]) && SkipSpaces(t) == t;
    assert t[0] != '-' && t[0] != '+' && !HasHexPrefix(t);
    assert DigitRun(t[2..]) == 0;
    assert DigitRun(t) == 2 && t[..2] == "12";
    assert "12"[..1] == "1";
    assert LeadingValue(t) == DigitsValue("12") == 12;
  }

  /** Text without digits is NaN, which `|| 0` reads as 0. */
  lemma ParseNoDigitsExample()
    ensures ParseQuantity("abc") == 0
  {
    var t := "abc";
    assert !IsSpace(t[0]) && SkipSpaces(t) == t;
    assert t[0] != '-' && t[0] != '+' && !HasHexPrefix(t);
    assert DigitRun(t) == 0 && t[..0] == "";
  }

  /** Leading white space is skipped and a sign is accepted. */
  lemma ParseSignedExample()
    ensures ParseQuantity(" -3") == -3
  {
    var t := "-3";
    assert " -3"[1..] == t && IsSpace(' ') && !IsSpace(t[0]);
    assert SkipSpaces(" -3") == SkipSpaces(t) == t;
    assert t[1..] == "3" && !HasHexPrefix("3");
    assert DigitRun("3") == 1 && "3"[..1] == "3";
    assert LeadingValue("3") == 3;
  }

  /** A `0x` prefix switches `parseInt` to base 16. */
  lemma ParseHexQuantityExample()
    ensures ParseQuantity("0x1F") == 31
  {
    assert !IsSpace('0');
    assert SkipSpaces("0x1F") == "0x1F";
    assert HasHexPrefix("0x1F") && "0x1F"[2..] == "1F";
    assert HexRun("1F") == 2;
    assert "1F"[..2] == "1F";
    assert HexDigitsValue("1F") == 31 by {
      assert "1F"[..1] == "1";
    }
  }

  lemma LeadingValueOfDigits(digits: string)
    requires forall i :: 0 <= i < |digits| ==> IsDigit(digits[i])
    ensures LeadingValue(digits) == DigitsValue(digits)
  {
    DigitRunAll(digits);
    assert digits[..|digits|] == digits;
  }

  lemma {:induction false} DigitRunAll(s: string)
    requires forall i :: 0 <= i < |s| ==> IsDigit(s[i])
    ensures DigitRun(s) == |s|
    decreases |s|
  {
    if |s| > 0 {
      DigitRunAll(s[1..]);
    }
  }

  // ---------------------------------------------------------------------
  // Totals shown by the form

  /** `orderTotal`: the parsed quantity at the price, with the fee. */
  function FormTotal(quantity: int, price: real): real {
    Utils.OrderTotal(quantity as real, price, true)
  }

  /** `maxBuyQuantity`: the cash over the price with its fee, rounded
      down. A zero price divides by zero in the source; the model yields 0
      there. */
  function MaxBuyQuantity(availableCash: real, price: real): int {
    Quotient(availableCash, price * 1.001).Floor
  }

  /** For a positive price, `maxBuyQuantity` is the largest quantity whose
      total with the fee the cash covers. */
  lemma MaxBuyQuantityIsLargest(availableCash: real, price: real)
    requires price > 0.0
    ensures FormTotal(MaxBuyQuantity(availableCash, price), price) <= availableCash
    ensures FormTotal(MaxBuyQuantity(availableCash, price) + 1, price) > availableCash
  {
    var unit := price * 1.001;
    var x := Quotient(availableCash, unit);
    QuotientTimes(availableCash, unit);
    var m := x.Floor;
    assert m as real <= x < (m + 1) as real;
    ScaleMonotone(m as real, x, unit);
    ScaleMonotone(x, (m + 1) as real, unit);
    assert FormTotal(m, price) == m as real * unit;
    assert FormTotal(m + 1, price) == (m + 1) as real * unit;
    assert x * unit == availableCash;
    assert x * unit < (m + 1) as real * unit;
    assert MaxBuyQuantity(availableCash, price) == m;
    var y := (m + 1) as real * unit;
    assert FormTotal(MaxBuyQuantity(availableCash, price) + 1, price) == y;
    assert availableCash < y;
  }

  lemma ScaleMonotone(a: real, b: real, c: real)
    requires a <= b && c > 0.0
    ensures a * c <= b * c
    ensures a < b ==> a * c < b * c
  {
  }

  /** The preview's subtotal and fee add up to the total shown, and to what
      a trade of that size costs the portfolio. */
  lemma PreviewAddsUp(quantity: int, price: real)
    ensures quantity as real * price + quantity as real * price * 0.001 == FormTotal(quantity, price)
    ensures Storage.TradeValue(quantity, price) + Storage.Fee(quantity, price) == FormTotal(quantity, price)
  {
    Utils.OrderTotalWithFee(quantity as real, price);
  }

  // ---------------------------------------------------------------------
  // Handlers

  /** handleSubmit: the error is cleared, then the first failing check sets
      its message and nothing is executed; when every check passes the
      order is executed and the quantity text goes back to "1". */
  function HandleSubmit(form: Form, price: real, availableCash: real, ownedShares: int): (r: Submitted)
    ensures r.form.action == form.action
    ensures r.executed.None? <==> r.form.error != ""
    ensures r.executed.None? ==> r.form.quantity == form.quantity
    ensures r.executed.Some? ==>
      r.executed.value == Order(form.action, ParseQuantity(form.quantity)) && r.form.quantity == "1"
  {
    var quantity := ParseQuantity(form.quantity);
    var cleared := form.(error := "");
    if !Utils.IsValidQuantity(quantity as real) then
      Submitted(cleared.(error := InvalidQuantity), None)
    else if form.action == BuyAction && FormTotal(quantity, price) > availableCash then
      Submitted(cleared.(error := InsufficientFunds), None)
    else if form.action == SellAction && quantity > ownedShares then
      Submitted(cleared.(error := InsufficientShares), None)
    else
      Submitted(cleared.(quantity := "1"), Some(Order(form.action, quantity)))
  }

  /** Which check a submit fails: a quantity below 1 (unparsable text
      included), a buy whose total exceeds the cash, or a sale of more
      shares than are owned; and only those. */
  lemma SubmitOutcomes(form: Form, price: real, availableCash: real, ownedShares: int)
    ensures var (q, r) := (ParseQuantity(form.quantity), HandleSubmit(form, price, availableCash, ownedShares));
      (r.form.error == InvalidQuantity <==> q <= 0)
      && (r.form.error == InsufficientFunds <==> q > 0 && form.action == BuyAction && FormTotal(q, price) > availableCash)
      && (r.form.error == InsufficientShares <==> q > 0 && form.action == SellAction && q > ownedShares)
  {
    var q := ParseQuantity(form.quantity);
    Utils.CountIsValidQuantity(q);
    assert |InvalidQuantity| == 29 && |InsufficientFunds| == 18 && |InsufficientShares| == 19;
  }

  /** The form accepts a buy exactly when the portfolio's buy accepts it:
      the form's total with the fee is the trade's value plus its fee. */
  lemma FormBuyAgreesWithPortfolio(form: Form, p: Portfolio, symbol: string, price: real)
    requires form.action == BuyAction && ParseQuantity(form.quantity) > 0
    ensures var q := ParseQuantity(form.quantity);
      HandleSubmit(form, price, p.cash, 0).executed.Some? <==> Storage.Buy(p, symbol, q, price).Some?
  {
    var q := ParseQuantity(form.quantity);
    Utils.CountIsValidQuantity(q);
    PreviewAddsUp(q, price);
  }

  /** A sale the form accepts, with the shares owned read from the
      portfolio's holding (none owned when there is none), is one the
      portfolio's sale accepts, and conversely. */
  lemma FormSellAgreesWithPortfolio(form: Form, p: Portfolio, symbol: string, price: real)
    requires form.action == SellAction && ParseQuantity(form.quantity) > 0
    ensures var owned := match Storage.FindHolding(p.holdings, symbol) case Some(h) => h.quantity case None => 0;
      var q := ParseQuantity(form.quantity);
      HandleSubmit(form, price, p.cash, owned).executed.Some? <==> Storage.Sell(p, symbol, q, price).Some?
  {
    Utils.CountIsValidQuantity(ParseQuantity(form.quantity));
  }

  /** setMaxQuantity: the quantity text becomes the largest affordable
      quantity for a buy, the shares owned for a sale. */
  function SetMaxQuantity(form: Form, price: real, availableCash: real, ownedShares: int): (r: Form)
    ensures r.action == form.action && r.error == form.error
    ensures ParseQuantity(r.quantity) == if form.action == BuyAction then MaxBuyQuantity(availableCash, price) else ownedShares
  {
    var n := if form.action == BuyAction then MaxBuyQuantity(availableCash, price) else ownedShares;
    ParseNumberString(n);
    form.(quantity := NumberString(n))
  }

  /** Pressing "Max" and then submitting executes the largest order the
      check allows: every affordable share for a buy, every owned share
      for a sale, whenever that is at least one. */
  lemma MaxThenSubmitExecutes(form: Form, price: real, availableCash: real, ownedShares: int)
    requires price > 0.0
    requires form.action == BuyAction ==> MaxBuyQuantity(availableCash, price) >= 1
    requires form.action == SellAction ==> ownedShares >= 1
    ensures var f := SetMaxQuantity(form, price, availableCash, ownedShares);
      var n := if form.action == BuyAction then MaxBuyQuantity(availableCash, price) else ownedShares;
      HandleSubmit(f, price, availableCash, ownedShares).executed == Some(Order(form.action, n))
  {
    var n := if form.action == BuyAction then MaxBuyQuantity(availableCash, price) else ownedShares;
    Utils.CountIsValidQuantity(n);
    MaxBuyQuantityIsLargest(availableCash, price);
  }
}
