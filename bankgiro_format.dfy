/** The Bankgiro "Leverantörsbetalningar" layout that both payment-file
    builders write: the error conditions they raise, the field encoders
    (transaction code, zero- and space-filled fields, amount digits, the
    YYMMDD date), the payment record and the stable sort on it, and the
    opening and closing posts. */
module BankgiroFormat {
  import opened Strings
  import opened AccountNumbers
  import opened StableSort

  datatype Option<T> = None | Some(value: T)

  /** The Warning conditions the builders raise; each aborts the whole file. */
  datatype Error =
    | NoPaymentLines
    | NoPaymentMode
    | NoCompanyBank
    | CompanyNotBankgiro(accType: AccType)
    | NoCompanyNumber
    | CompanyNumberTooLong(digits: nat)
    | PlusgiroNotPositive(partner: string)
    | InvalidAccountType(partner: string)
    | NoPartnerAccount(partner: string)
    | PartnerAccountTooLong(partner: string, digits: nat)
    | AmountTooBig(partner: string)
    | NotSek(partner: string, currency: string)

  datatype Result<T> = Success(value: T) | Failure(error: Error) {
    predicate IsFailure() { Failure? }

    function PropagateFailure<U>(): Result<U>
      requires Failure?
    {
      Failure(error)
    }

    function Extract(): T
      requires Success?
    {
      value
    }
  }

  /** f applied to every element in order, or the first error it raises:
      a loop that appends one result per element and stops at a Warning. */
  function CollectAll<A, B>(xs: seq<A>, f: A -> Result<B>): (r: Result<seq<B>>)
    ensures r.Success? ==> |r.value| == |xs|
  {
    if |xs| == 0 then Success([])
    else
      var init :- CollectAll(xs[..|xs| - 1], f);
      var last :- f(xs[|xs| - 1]);
      Success(init + [last])
  }

  /** Every element succeeds exactly when the whole does, and then result i
      is f's result on element i. */
  lemma {:induction false} CollectAllSuccess<A, B>(xs: seq<A>, f: A -> Result<B>)
    ensures CollectAll(xs, f).Success? <==> forall i :: 0 <= i < |xs| ==> f(xs[i]).Success?
    ensures CollectAll(xs, f).Success? ==>
      forall i :: 0 <= i < |xs| ==> f(xs[i]) == Success(CollectAll(xs, f).value[i])
  {
    if |xs| > 0 {
      var init := xs[..|xs| - 1];
      CollectAllSuccess(init, f);
      assert forall i :: 0 <= i < |init| ==> init[i] == xs[i];
    }
  }

  /** A failure is the error of the first element that fails. */
  lemma {:induction false} CollectAllFirstError<A, B>(xs: seq<A>, f: A -> Result<B>, i: nat)
    requires i < |xs| && f(xs[i]).Failure?
    requires forall j :: 0 <= j < i ==> f(xs[j]).Success?
    ensures CollectAll(xs, f) == Failure(f(xs[i]).error)
    decreases |xs|
  {
    var init := xs[..|xs| - 1];
    if i < |xs| - 1 {
      CollectAllFirstError(init, f, i);
    } else {
      CollectAllSuccess(init, f);
    }
  }

  /** When the first i elements succeed, element i decides whether i + 1
      elements do; if it fails, its error is the whole result. */
  lemma CollectAllStep<A, B>(xs: seq<A>, f: A -> Result<B>, i: nat)
    requires i < |xs| && CollectAll(xs[..i], f).Success?
    ensures f(xs[i]).Success? ==>
      CollectAll(xs[..i + 1], f) == Success(CollectAll(xs[..i], f).value + [f(xs[i]).value])
    ensures f(xs[i]).Failure? ==> CollectAll(xs, f) == Failure(f(xs[i]).error)
  {
    assert xs[..i + 1][..i] == xs[..i];
    if f(xs[i]).Failure? {
      CollectAllSuccess(xs[..i], f);
      assert forall j :: 0 <= j < i ==> xs[..i][j] == xs[j];
      CollectAllFirstError(xs, f, i);
    }
  }

  type Year = y: int | 1 <= y <= 9999 witness 1
  type Month = m: int | 1 <= m <= 12 witness 1
  type Day = d: int | 1 <= d <= 31 witness 1

  /** A calendar date, as a datetime.date holds it. */
  datatype Date = Date(year: Year, month: Month, day: Day)

  /** date.strftime("%y%m%d"): six digits that give back the year modulo
      100, the month and the day. */
  function Yymmdd(d: Date): (s: string)
    ensures |s| == 6 && IsDigitString(s)
    ensures DecimalValue(s[..2]) == d.year % 100
    ensures DecimalValue(s[2..4]) == d.month
    ensures DecimalValue(s[4..]) == d.day
  {
    var s := Pad2(d.year % 100) + Pad2(d.month) + Pad2(d.day);
    assert s[..2] == Pad2(d.year % 100) && s[2..4] == Pad2(d.month) && s[4..] == Pad2(d.day);
    s
  }

  function Abs(n: int): nat { if n < 0 then -n else n }

  /** The largest amount field: 12 digits of öre. */
  const AmountWidth: nat := 12

  /** The sign '{0:.2f}' writes before a negative amount. */
  function SignOf(n: int): string { if n < 0 then "-" else "" }

  /** '{0:.2f}'.format(n / 100) for an amount of n öre: a sign when
      negative, the kronor, a point and the two öre digits. */
  function FixedPoint2(n: int): string {
    SignOf(n) + Str(Abs(n) / 100) + "." + Pad2(Abs(n) % 100)
  }

  /** The formatted amount with '.', ',' and '-' removed. */
  function AmountDigits(n: int): string {
    RemoveAll(RemoveAll(RemoveAll(FixedPoint2(n), '.'), ','), '-')
  }

  lemma RemoveSingle(c: char, d: char)
    ensures RemoveAll([c], d) == if c == d then [] else [c]
  {
    assert [c][..0] == [];
  }

  /** A sign of "" or "-" loses only a '-'. */
  lemma StripSign(sign: string, c: char)
    requires sign == "" || sign == "-"
    ensures RemoveAll(sign, c) == if c == '-' then "" else sign
  {
    if sign == "-" { RemoveSingle('-', c); }
  }

  /** Deleting '.' from sign + q + "." + r drops the decimal point only. */
  lemma StripPoint(sign: string, q: string, r: string)
    requires sign == "" || sign == "-"
    requires OnlyDigits(q) && OnlyDigits(r)
    ensures RemoveAll(sign + q + "." + r, '.') == sign + q + r
  {
    var p := sign + q;
    assert sign + q + "." + r == p + ("." + r);
    RemoveAllConcat(p, "." + r, '.');
    RemoveAllAbsent(p, '.');
    StripLeading('.', r);
  }

  /** Deleting c from [c] + r, r without c, leaves r. */
  lemma StripLeading(c: char, r: string)
    requires c !in r
    ensures RemoveAll([c] + r, c) == r
  {
    RemoveAllConcat([c], r, c);
    RemoveSingle(c, c);
    RemoveAllAbsent(r, c);
  }

  /** Stripping '.', ',' and '-' from sign + q + "." + r leaves q + r. */
  lemma StripNumber(sign: string, q: string, r: string)
    requires sign == "" || sign == "-"
    requires OnlyDigits(q) && OnlyDigits(r)
    ensures RemoveAll(RemoveAll(RemoveAll(sign + q + "." + r, '.'), ','), '-') == q + r
  {
    StripPoint(sign, q, r);
    StripComma(sign, q, r);
    StripMinus(sign, q, r);
  }

  /** sign + q + r holds no ','. */
  lemma StripComma(sign: string, q: string, r: string)
    requires sign == "" || sign == "-"
    requires OnlyDigits(q) && OnlyDigits(r)
    ensures RemoveAll(sign + q + r, ',') == sign + q + r
  {
    RemoveAllAbsent(sign + q + r, ',');
  }

  /** Deleting '-' from a sign followed by digits leaves the digits. */
  lemma StripMinus(sign: string, q: string, r: string)
    requires sign == "" || sign == "-"
    requires OnlyDigits(q) && OnlyDigits(r)
    ensures RemoveAll(sign + q + r, '-') == q + r
  {
    var t := q + r;
    if sign == "" {
      assert sign + q + r == t;
      RemoveAllAbsent(t, '-');
    } else {
      assert sign + q + r == ['-'] + t;
      StripLeading('-', t);
    }
  }

  /** Stripping '.', ',' and '-' leaves the kronor digits and the two öre digits. */
  lemma AmountDigitsStrip(n: int)
    ensures AmountDigits(n) == Str(Abs(n) / 100) + Pad2(Abs(n) % 100)
  {
    StripNumber(SignOf(n), Str(Abs(n) / 100), Pad2(Abs(n) % 100));
  }

  /** str(a // 100) followed by the two-digit a % 100 is str(a) zero-filled to 3. */
  lemma HundredsZeroFilled(a: nat)
    ensures Str(a / 100) + Pad2(a % 100) == RJust(Str(a), 3, '0')
  {
    if a >= 100 {
      StrHundreds(a);
      StrLength(a, 2);
    } else if a >= 10 {
      assert Str(a) == Pad2(a);
    } else {
      assert Str(a) == [DigitChar(a)];
    }
  }

  /** The amount digits are the decimal digits of |n| zero-filled to at
      least three characters: they denote |n| öre, and fit the 12-digit
      field exactly when |n| < 10^12. */
  lemma AmountDigitsMeaning(n: int)
    ensures AmountDigits(n) == RJust(Str(Abs(n)), 3, '0')
    ensures OnlyDigits(AmountDigits(n)) && DecimalValue(AmountDigits(n)) == Abs(n)
    ensures 3 <= |AmountDigits(n)|
    ensures |AmountDigits(n)| <= AmountWidth <==> Abs(n) < Pow10(AmountWidth)
  {
    AmountDigitsStrip(n);
    HundredsZeroFilled(Abs(n));
    StrValue(Abs(n));
    ZeroFillValue(Str(Abs(n)), 3);
    StrLength(Abs(n), AmountWidth);
  }

  /** _payment_amount: the amount digits, or an error when they do not fit
      12 characters (checked first) or the currency is not SEK. */
  function PaymentAmount(amount: int, currency: string, partner: string): (r: Result<string>)
    ensures r.Success? <==> Abs(amount) < Pow10(AmountWidth) && currency == "SEK"
    ensures Abs(amount) >= Pow10(AmountWidth) ==> r == Failure(AmountTooBig(partner))
    ensures Abs(amount) < Pow10(AmountWidth) && currency != "SEK" ==>
              r == Failure(NotSek(partner, currency))
    ensures r.Success? ==> 3 <= |r.value| <= AmountWidth && OnlyDigits(r.value)
                           && DecimalValue(r.value) == Abs(amount)
  {
    AmountDigitsMeaning(amount);
    var amountDigits := AmountDigits(amount);
    if |amountDigits| > AmountWidth then Failure(AmountTooBig(partner))
    else if currency != "SEK" then Failure(NotSek(partner, currency))
    else Success(amountDigits)
  }

  /** _payment_type: the transaction code of a payment to an account of the
      given type: 14 Bankgiro payment, 16 Bankgiro credit, 54 Plusgiro
      payment; zero or negative to Plusgiro and every other type are errors. */
  function PaymentType(accType: AccType, amount: int, partner: string): (r: Result<string>)
    ensures r == Success("14") <==> accType == Bankgiro && amount >= 0
    ensures r == Success("16") <==> accType == Bankgiro && amount < 0
    ensures r == Success("54") <==> accType == Plusgiro && amount > 0
    ensures r == Failure(PlusgiroNotPositive(partner)) <==> accType == Plusgiro && amount <= 0
    ensures r == Failure(InvalidAccountType(partner)) <==> accType == Other
  {
    if accType == Bankgiro && amount >= 0 then Success("14")
    else if accType == Bankgiro && amount < 0 then Success("16")
    else if accType == Plusgiro && amount > 0 then Success("54")
    else if accType == Plusgiro && amount <= 0 then Failure(PlusgiroNotPositive(partner))
    else assert accType == Other; Failure(InvalidAccountType(partner))
  }

  /** The widths of the fixed fields of a payment record. */
  const CodeWidth: nat := 2
  const AccountWidth: nat := 10
  const ReferenceWidth: nat := 25
  const DateWidth: nat := 6
  const Spacer := "     "
  const Crlf := "\r\n"

  /** _payment_ref followed by ljust(25): the last 25 characters of the
      communication, space-filled to exactly 25. */
  function ReferenceField(communication: string): (f: string)
    ensures |f| == ReferenceWidth
    ensures var n := if |communication| < ReferenceWidth then |communication| else ReferenceWidth;
            f[..n] == communication[|communication| - n..]
            && forall i :: n <= i < ReferenceWidth ==> f[i] == ' '
  {
    LJust(Tail(communication, ReferenceWidth), ReferenceWidth, ' ')
  }

  /** One payment line of the file: the seven list elements the builders
      append, the five spaces and the line end being fixed. */
  datatype PaymentRecord = PaymentRecord(
    code: string,
    account: string,
    reference: string,
    amount: string,
    date: string,
    internalRef: string)

  /** ''.join(elem for elem in line) for one record. */
  function RecordText(r: PaymentRecord): string {
    r.code + r.account + r.reference + r.amount + r.date + Spacer + r.internalRef + Crlf
  }

  /** Every fixed field has its width. */
  predicate FixedWidths(r: PaymentRecord) {
    && |r.code| == CodeWidth
    && |r.account| == AccountWidth
    && |r.reference| == ReferenceWidth
    && |r.amount| == AmountWidth
    && |r.date| == DateWidth
  }

  /** Cuts a record line at the fixed column positions. */
  function ParseRecord(s: string): PaymentRecord
    requires |s| >= 62
  {
    PaymentRecord(s[..2], s[2..12], s[12..37], s[37..49], s[49..55], s[60..|s| - 2])
  }

  /** A record with its fixed widths is 60 characters, its internal
      reference and CRLF, and cutting it at the columns gives it back. */
  lemma RecordRoundTrip(r: PaymentRecord)
    requires FixedWidths(r)
    ensures |RecordText(r)| == 60 + |r.internalRef| + 2
    ensures RecordText(r)[55..60] == Spacer
    ensures RecordText(r)[|RecordText(r)| - 2..] == Crlf
    ensures ParseRecord(RecordText(r)) == r
  {
    var t := RecordText(r);
    assert t[..2] == r.code;
    assert t[2..12] == r.account;
    assert t[12..37] == r.reference;
    assert t[37..49] == r.amount;
    assert t[49..55] == r.date;
    assert t[55..60] == Spacer;
    assert t[60..|t| - 2] == r.internalRef;
  }

  /** ''.join over all records, in order. */
  function JoinRecords(rs: seq<PaymentRecord>): string {
    if rs == [] then "" else JoinRecords(rs[..|rs| - 1]) + RecordText(rs[|rs| - 1])
  }

  /** Records of fixed widths take 62 characters each plus their internal references. */
  lemma {:induction false} JoinRecordsLength(rs: seq<PaymentRecord>)
    requires forall i :: 0 <= i < |rs| ==> FixedWidths(rs[i])
    ensures |JoinRecords(rs)| == 62 * |rs| + InternalRefsLength(rs)
  {
    if rs != [] {
      JoinRecordsLength(rs[..|rs| - 1]);
      RecordRoundTrip(rs[|rs| - 1]);
    }
  }

  function InternalRefsLength(rs: seq<PaymentRecord>): nat {
    if rs == [] then 0 else InternalRefsLength(rs[..|rs| - 1]) + |rs[|rs| - 1].internalRef|
  }

  // ---------------------------------------------------------------------
  // payment_lines.sort(key=lambda x: (x[1], x[0])): a stable sort by the
  // account field and then by the transaction code, compared as str.

  type Key = (string, string)

  /** The sort key (x[1], x[0]): the account field, then the transaction code. */
  function KeyOf(r: PaymentRecord): Key { (r.account, r.code) }

  /** Tuple comparison of two keys, each component compared as str. */
  predicate KeyBefore(a: Key, b: Key) {
    StrLess(a.0, b.0) || (a.0 == b.0 && StrLess(a.1, b.1))
  }

  /** The tuple comparison is a strict total order on keys. */
  lemma KeyOrder()
    ensures StrictTotalOrder(KeyBefore)
  {
    forall a: Key ensures !KeyBefore(a, a) {
      StrLessIrreflexive(a.0);
      StrLessIrreflexive(a.1);
    }
    forall a: Key, b: Key, c: Key | KeyBefore(a, b) && KeyBefore(b, c) ensures KeyBefore(a, c) {
      if StrLess(a.0, b.0) && StrLess(b.0, c.0) {
        StrLessTransitive(a.0, b.0, c.0);
      } else if a.0 == b.0 && b.0 == c.0 {
        StrLessTransitive(a.1, b.1, c.1);
      }
    }
    forall a: Key, b: Key ensures a == b || KeyBefore(a, b) || KeyBefore(b, a) {
      StrLessTotal(a.0, b.0);
      StrLessTotal(a.1, b.1);
    }
  }

  /** The model of list.sort with this key: the stable sort by KeyOf. */
  function SortRecords(s: seq<PaymentRecord>): (r: seq<PaymentRecord>)
    ensures |r| == |s|
  {
    SortBy(s, KeyOf, KeyBefore)
  }

  /** In key order, for one account a credit (16) never precedes a payment (14). */
  lemma CreditsAfterPayments(s: seq<PaymentRecord>, i: int, j: int)
    requires Sorted(s, KeyOf, KeyBefore) && 0 <= i < j < |s| && s[i].account == s[j].account
    ensures !(s[i].code == "16" && s[j].code == "14")
  {
    assert StrLess("14", "16");
  }

  /** x sorts before every record of s from index j on. */
  predicate BeforeAllFrom(x: PaymentRecord, s: seq<PaymentRecord>, j: nat) {
    forall k :: j <= k < |s| ==> KeyBefore(KeyOf(x), KeyOf(s[k]))
  }

  /** One step of the in-place insertion sort: a[i] moves left past every
      record of a[..i] whose key is greater than its own. */
  method InsertInPlace(a: array<PaymentRecord>, i: nat)
    requires i < a.Length && Sorted(a[..i], KeyOf, KeyBefore)
    modifies a
    ensures a[..i + 1] == Insert(old(a[i]), old(a[..i]), KeyOf, KeyBefore)
    ensures forall k :: i < k < a.Length ==> a[k] == old(a[k])
  {
    var x := a[i];
    ghost var sorted := a[..i];
    var j := i;
    while j > 0 && KeyBefore(KeyOf(x), KeyOf(a[j - 1]))
      invariant 0 <= j <= i
      invariant forall k :: 0 <= k < j ==> a[k] == sorted[k]
      invariant forall k :: j < k <= i ==> a[k] == sorted[k - 1]
      invariant forall k :: i < k < a.Length ==> a[k] == old(a[k])
      invariant BeforeAllFrom(x, sorted, j)
    {
      a[j] := a[j - 1];
      j := j - 1;
    }
    a[j] := x;
    assert a[..i + 1] == Insert(x, sorted, KeyOf, KeyBefore) by {
      KeyOrder();
      InsertPlaced(x, sorted, KeyOf, KeyBefore, j, a[..i + 1]);
    }
  }

  /** payment_lines.sort(key=lambda x: (x[1], x[0])), in place. */
  method SortPaymentLines(a: array<PaymentRecord>)
    modifies a
    ensures a[..] == SortRecords(old(a[..]))
  {
    ghost var input := a[..];
    var i := 0;
    KeyOrder();
    while i < a.Length
      invariant 0 <= i <= a.Length
      invariant a[..i] == SortRecords(input[..i])
      invariant forall k :: i <= k < a.Length ==> a[k] == input[k]
    {
      SortSorted(input[..i], KeyOf, KeyBefore);
      SortSnoc(input, KeyOf, KeyBefore, i);
      InsertInPlace(a, i);
      i := i + 1;
    }
    assert a[..] == a[..a.Length] && input == input[..a.Length];
  }

  /** The text of the sorted records: they are copied into an array, sorted
      in place and joined. */
  method JoinSorted(records: seq<PaymentRecord>) returns (text: string)
    ensures text == JoinRecords(SortRecords(records))
  {
    var a := new PaymentRecord[|records|](k requires 0 <= k < |records| => records[k]);
    assert a[..] == records;
    SortPaymentLines(a);
    text := JoinRecords(a[..]);
  }

  // ---------------------------------------------------------------------
  // Zero-filled numeric fields.

  /** number.rjust(10, '0'): a condensed account number as a 10-character
      field; a digit string of at most 10 digits keeps its value, a longer
      one is written whole. */
  function AccountField(number: string): (f: string)
    ensures |number| <= AccountWidth ==> |f| == AccountWidth
    ensures |number| >= AccountWidth ==> f == number
    ensures OnlyDigits(number) ==> OnlyDigits(f) && DecimalValue(f) == DecimalValue(number)
  {
    var f := RJust(number, AccountWidth, '0');
    assert OnlyDigits(number) ==> OnlyDigits(f) && DecimalValue(f) == DecimalValue(number) by {
      if OnlyDigits(number) { ZeroFillValue(number, AccountWidth); }
    }
    f
  }

  /** str(count).rjust(8, '0'): the line count in at least 8 digits. */
  function CountField(count: nat): (f: string)
    ensures OnlyDigits(f) && DecimalValue(f) == count
    ensures |f| == 8 <==> count < Pow10(8)
    ensures |f| >= 8
  {
    StrLength(count, 8);
    StrValue(count);
    ZeroFillValue(Str(count), 8);
    RJust(Str(count), 8, '0')
  }

  /** The amount digits of n öre, rjust(12, '0'): |n| in at least 12 digits. */
  function AmountField(n: int): (f: string)
    ensures OnlyDigits(f) && DecimalValue(f) == Abs(n)
    ensures |f| == AmountWidth <==> Abs(n) < Pow10(AmountWidth)
    ensures |f| >= AmountWidth
  {
    AmountDigitsMeaning(n);
    ZeroFillValue(AmountDigits(n), AmountWidth);
    RJust(AmountDigits(n), AmountWidth, '0')
  }

  // ---------------------------------------------------------------------
  // Opening and closing posts.

  const OpeningCode := "11"
  const ClosingCode := "29"
  const Header := "LEVERANTÖRSBETALNINGAR\r\n"

  /** _create_opening_post: 11, the company number zero-filled to 10, the
      generation date YYMMDD and the fixed text. */
  function OpeningPost(company: string, today: Date): string {
    OpeningCode + AccountField(company) + Yymmdd(today) + Header
  }

  /** For a company number of at most 10 digits the opening post has its
      fields at fixed columns and gives back the number and the date. */
  lemma OpeningPostLayout(company: string, today: Date)
    requires |company| <= AccountWidth
    ensures var p := OpeningPost(company, today);
      && |p| == 42
      && p[..2] == OpeningCode
      && p[2..12] == AccountField(company)
      && (OnlyDigits(company) ==> OnlyDigits(p[2..12]) && DecimalValue(p[2..12]) == DecimalValue(company))
      && p[12..18] == Yymmdd(today)
      && p[18..] == Header
  {
    var p := OpeningPost(company, today);
    assert p[2..12] == AccountField(company);
    assert p[12..18] == Yymmdd(today);
  }

  /** The sign flag of the closing post: "-" iff the total is negative. */
  function NegativeMark(total: int): (m: string)
    ensures m == "-" <==> total < 0
    ensures m == "" <==> total >= 0
  {
    if total < 0 then "-" else ""
  }

  /** _create_closing_post: 29, the company number zero-filled to 10, the
      line count zero-filled to 8, the total's amount digits zero-filled to
      12 and its sign flag. No field is cut: wider values widen the post. */
  function ClosingPost(company: string, count: nat, total: int): string {
    ClosingCode + AccountField(company) + CountField(count) + AmountField(total)
      + NegativeMark(total)
  }

  /** The columns of "29" + c + n + a + m for fields of widths 10, 8 and 12. */
  lemma ClosingColumns(c: string, n: string, a: string, m: string)
    requires |c| == AccountWidth && |n| == 8 && |a| == AmountWidth && |m| <= 1
    requires OnlyDigits(a)
    ensures var p := ClosingCode + c + n + a + m;
      && |p| == 32 + |m| && p[..2] == ClosingCode
      && p[2..12] == c && p[12..20] == n && p[20..32] == a
      && p[|p| - 1] == (if m == "" then a[11] else m[0])
      && (m == "" ==> IsDigit(p[|p| - 1]))
  {
    DigitAt(a, 11);
  }

  /** When every value fits its field the closing post is 32 characters
      plus the sign flag, and its fields give back the company number, the
      count, |total| and the sign. */
  lemma ClosingPostLayout(company: string, count: nat, total: int)
    requires |company| <= AccountWidth
    requires count < Pow10(8) && Abs(total) < Pow10(AmountWidth)
    ensures var p := ClosingPost(company, count, total);
      && |p| == 32 + (if total < 0 then 1 else 0)
      && p[..2] == ClosingCode
      && p[2..12] == AccountField(company)
      && (OnlyDigits(company) ==> OnlyDigits(p[2..12]) && DecimalValue(p[2..12]) == DecimalValue(company))
      && OnlyDigits(p[12..20]) && DecimalValue(p[12..20]) == count
      && OnlyDigits(p[20..32]) && DecimalValue(p[20..32]) == Abs(total)
      && (p[|p| - 1] == '-' <==> total < 0)
  {
    ClosingColumns(AccountField(company), CountField(count), AmountField(total), NegativeMark(total));
  }
}
