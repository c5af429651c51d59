/** The older payment-file wizard (payment.order.bgfilegenerator): the same
    file layout as the account.payment.order builder, read from a payment
    order whose payment mode holds the company bank, with bank types taken
    from the bank record's state, stricter account checks, a scheduled date
    that overrides the line dates, and the invoice number as internal
    reference. */
module PaymentOrderWizard {
  import opened Strings
  import opened AccountNumbers
  import opened StableSort
  import opened BankgiroFormat

  /** A payment mode: the company bank record it pays from, if any. The
      bank record's type stands for its state field ('bg', 'pg', ...). */
  datatype PaymentMode = PaymentMode(bank: Option<BankAccount>)

  /** A payment order line: partner name, partner bank record (if any),
      amount_currency in öre, currency name, communication, the line's
      payment date (if set) and the number of its invoice (if any). */
  datatype PaymentLine = PaymentLine(
    partner: string,
    bank: Option<BankAccount>,
    amount: int,
    currency: string,
    communication: string,
    date: Option<Date>,
    invoiceNumber: Option<string>)

  /** A payment order: its payment mode (if set), its scheduled date (if
      set) and its lines. */
  datatype Order = Order(mode: Option<PaymentMode>, dateScheduled: Option<Date>, lines: seq<PaymentLine>)

  /** _company_bank: the condensed Bankgiro number of the payment mode's
      bank. The checks run in this order: a payment mode, a bank record, a
      Bankgiro state, a non-empty number, at most 10 characters. */
  function CompanyBank(order: Order): (r: Result<string>)
    ensures order.mode.None? ==> r == Failure(NoPaymentMode)
    ensures order.mode.Some? && order.mode.value.bank.None? ==> r == Failure(NoCompanyBank)
    ensures order.mode.Some? && order.mode.value.bank.Some?
            && order.mode.value.bank.value.accType != Bankgiro ==>
              r == Failure(CompanyNotBankgiro(order.mode.value.bank.value.accType))
    ensures r.Success? <==>
      && order.mode.Some? && order.mode.value.bank.Some?
      && order.mode.value.bank.value.accType == Bankgiro
      && 0 < |RemoveAll(order.mode.value.bank.value.accNumber, '-')| <= AccountWidth
    ensures order.mode.Some? && order.mode.value.bank.Some?
            && order.mode.value.bank.value.accType == Bankgiro ==>
              var n := RemoveAll(order.mode.value.bank.value.accNumber, '-');
              && (n == "" ==> r == Failure(NoCompanyNumber))
              && (|n| > AccountWidth ==> r == Failure(CompanyNumberTooLong(|n|)))
    ensures r.Success? ==> r.value == RemoveAll(order.mode.value.bank.value.accNumber, '-')
    ensures r.Success? ==> '-' !in r.value
  {
    if order.mode.None? then Failure(NoPaymentMode)
    else if order.mode.value.bank.None? then Failure(NoCompanyBank)
    else
      var bank := order.mode.value.bank.value;
      if bank.accType != Bankgiro then Failure(CompanyNotBankgiro(bank.accType))
      else
        var companyBg := RemoveAll(bank.accNumber, '-');
        RemoveAllMembers(bank.accNumber, '-');
        if companyBg == "" then Failure(NoCompanyNumber)
        else if |companyBg| > AccountWidth then Failure(CompanyNumberTooLong(|companyBg|))
        else Success(companyBg)
  }

  /** The state of the line's bank record; a line without one has none. */
  function PartnerAccType(line: PaymentLine): AccType {
    if line.bank.Some? then line.bank.value.accType else Other
  }

  /** acc_number or '' */
  function PartnerNumber(line: PaymentLine): string {
    if line.bank.Some? then line.bank.value.accNumber else ""
  }

  /** _partner_bank: the condensed partner account number; an error when
      it is empty, then when it has more than 10 characters. */
  function PartnerBank(line: PaymentLine): (r: Result<string>)
    ensures var acc := RemoveAll(PartnerNumber(line), '-');
      && (acc == "" ==> r == Failure(NoPartnerAccount(line.partner)))
      && (|acc| > AccountWidth ==> r == Failure(PartnerAccountTooLong(line.partner, |acc|)))
      && (r.Success? <==> 0 < |acc| <= AccountWidth)
      && (r.Success? ==> r.value == acc && '-' !in r.value)
  {
    var partnerAcc := RemoveAll(PartnerNumber(line), '-');
    RemoveAllMembers(PartnerNumber(line), '-');
    if partnerAcc == "" then Failure(NoPartnerAccount(line.partner))
    else if |partnerAcc| > AccountWidth then Failure(PartnerAccountTooLong(line.partner, |partnerAcc|))
    else Success(partnerAcc)
  }

  /** _payment_date: the order's scheduled date, else the line's date, else today. */
  function PaymentDate(order: Order, line: PaymentLine, today: Date): (d: Date)
    ensures order.dateScheduled.Some? ==> d == order.dateScheduled.value
    ensures order.dateScheduled.None? && line.date.Some? ==> d == line.date.value
    ensures order.dateScheduled.None? && line.date.None? ==> d == today
  {
    if order.dateScheduled.Some? then order.dateScheduled.value
    else if line.date.Some? then line.date.value
    else today
  }

  /** _internal_ref: the invoice number or ''. Nothing cuts it to 20 characters. */
  function InternalRef(line: PaymentLine): string {
    if line.invoiceNumber.Some? then line.invoiceNumber.value else ""
  }

  /** The record of one order line; the first failing helper gives the
      error: transaction code, then partner account, then amount. */
  function BuildRecord(order: Order, line: PaymentLine, today: Date): (r: Result<PaymentRecord>)
    ensures var t := PaymentType(PartnerAccType(line), line.amount, line.partner);
      t.Failure? ==> r == Failure(t.error)
    ensures var t := PaymentType(PartnerAccType(line), line.amount, line.partner);
      (t.Success? && PartnerBank(line).Failure?) ==> r == Failure(PartnerBank(line).error)
    ensures var t := PaymentType(PartnerAccType(line), line.amount, line.partner);
      var m := PaymentAmount(line.amount, line.currency, line.partner);
      (t.Success? && PartnerBank(line).Success? && m.Failure?) ==> r == Failure(m.error)
    ensures r.Success? <==>
      && PaymentType(PartnerAccType(line), line.amount, line.partner).Success?
      && PartnerBank(line).Success?
      && PaymentAmount(line.amount, line.currency, line.partner).Success?
  {
    var code :- PaymentType(PartnerAccType(line), line.amount, line.partner);
    var account :- PartnerBank(line);
    var amount :- PaymentAmount(line.amount, line.currency, line.partner);
    Success(PaymentRecord(
      code,
      AccountField(account),
      ReferenceField(line.communication),
      RJust(amount, AmountWidth, '0'),
      Yymmdd(PaymentDate(order, line, today)),
      InternalRef(line)))
  }

  /** Every record the wizard builds has all its fixed widths, the partner
      account exactly 10 characters among them, so it reads back by
      position; its internal reference is the whole invoice number. */
  lemma BuildRecordLayout(order: Order, line: PaymentLine, today: Date)
    requires BuildRecord(order, line, today).Success?
    ensures var r := BuildRecord(order, line, today).value;
      && FixedWidths(r)
      && r.account == AccountField(RemoveAll(PartnerNumber(line), '-'))
      && OnlyDigits(r.amount) && DecimalValue(r.amount) == Abs(line.amount)
      && r.date == Yymmdd(PaymentDate(order, line, today))
      && r.internalRef == InternalRef(line)
      && |RecordText(r)| == 62 + |InternalRef(line)|
      && ParseRecord(RecordText(r)) == r
  {
    var r := BuildRecord(order, line, today).value;
    var amount := PaymentAmount(line.amount, line.currency, line.partner).value;
    ZeroFillValue(amount, AmountWidth);
    RecordRoundTrip(r);
  }

  /** The builder of one line's record for an order on a given day. */
  function LineRecord(order: Order, today: Date): PaymentLine -> Result<PaymentRecord> {
    line => BuildRecord(order, line, today)
  }

  /** The records of all the order's lines in order, or the first error. */
  function BuildRecords(order: Order, lines: seq<PaymentLine>, today: Date): (r: Result<seq<PaymentRecord>>)
    ensures r.Success? ==> |r.value| == |lines|
  {
    CollectAll(lines, LineRecord(order, today))
  }

  /** sum(pline.amount_currency for pline in line_ids); only payments give
      a total that is not negative, only credits one that is not positive. */
  function Total(lines: seq<PaymentLine>): (t: int)
    ensures (forall i :: 0 <= i < |lines| ==> lines[i].amount >= 0) ==> t >= 0
    ensures (forall i :: 0 <= i < |lines| ==> lines[i].amount <= 0) ==> t <= 0
  {
    if lines == [] then 0 else Total(lines[..|lines| - 1]) + lines[|lines| - 1].amount
  }

  /** The file action_generate_file builds, or its first error: no lines
      before anything else, then the company bank, then the lines. */
  function GenerateFile(order: Order, today: Date): (r: Result<string>)
    ensures order.lines == [] ==> r == Failure(NoPaymentLines)
    ensures order.lines != [] && CompanyBank(order).Failure? ==> r == Failure(CompanyBank(order).error)
    ensures order.lines != [] && CompanyBank(order).Success?
            && BuildRecords(order, order.lines, today).Failure? ==>
              r == Failure(BuildRecords(order, order.lines, today).error)
    ensures r.Success? <==>
      order.lines != [] && CompanyBank(order).Success? && BuildRecords(order, order.lines, today).Success?
  {
    if order.lines == [] then Failure(NoPaymentLines)
    else
      var companyBg :- CompanyBank(order);
      var records :- BuildRecords(order, order.lines, today);
      Success(OpeningPost(companyBg, today) + JoinRecords(SortRecords(records))
        + ClosingPost(companyBg, |order.lines|, Total(order.lines)))
  }

  /** When every line builds, there is one record per line, each with its
      fixed widths. */
  lemma BuiltRecordsLayout(order: Order, lines: seq<PaymentLine>, today: Date)
    requires BuildRecords(order, lines, today).Success?
    ensures var records := BuildRecords(order, lines, today).value;
      && |records| == |lines|
      && forall i :: 0 <= i < |records| ==> FixedWidths(records[i])
  {
    var f := LineRecord(order, today);
    var records := BuildRecords(order, lines, today).value;
    CollectAllSuccess(lines, f);
    forall i | 0 <= i < |records| ensures FixedWidths(records[i]) {
      assert f(lines[i]) == BuildRecord(order, lines[i], today);
      BuildRecordLayout(order, lines[i], today);
    }
  }

  /** A produced file starts with a 42-character opening post and holds the
      built records sorted stably by (account field, code); every record has
      its fixed widths. */
  lemma GenerateFileLayout(order: Order, today: Date)
    requires GenerateFile(order, today).Success?
    ensures var company := CompanyBank(order).value;
      var records := BuildRecords(order, order.lines, today).value;
      var sorted := SortRecords(records);
      var file := GenerateFile(order, today).value;
      && |records| == |order.lines|
      && file == OpeningPost(company, today) + JoinRecords(sorted)
                 + ClosingPost(company, |order.lines|, Total(order.lines))
      && |OpeningPost(company, today)| == 42
      && (forall i :: 0 <= i < |sorted| ==> FixedWidths(sorted[i]))
      && Sorted(sorted, KeyOf, KeyBefore)
      && multiset(sorted) == multiset(records)
      && (forall k :: WithKey(sorted, KeyOf, k) == WithKey(records, KeyOf, k))
  {
    var company := CompanyBank(order).value;
    var records := BuildRecords(order, order.lines, today).value;
    var sorted := SortRecords(records);
    assert |OpeningPost(company, today)| == 42 by { OpeningPostLayout(company, today); }
    assert Sorted(sorted, KeyOf, KeyBefore) by {
      KeyOrder();
      SortSorted(records, KeyOf, KeyBefore);
    }
    assert multiset(sorted) == multiset(records) by { SortPermutation(records, KeyOf, KeyBefore); }
    assert forall i :: 0 <= i < |sorted| ==> FixedWidths(sorted[i]) by {
      BuiltRecordsLayout(order, order.lines, today);
      forall i | 0 <= i < |sorted| ensures FixedWidths(sorted[i]) {
        assert sorted[i] in multiset(records);
      }
    }
    forall k ensures WithKey(sorted, KeyOf, k) == WithKey(records, KeyOf, k) {
      KeyOrder();
      SortStable(records, KeyOf, KeyBefore, k);
    }
  }

  /** With fewer than 10^8 lines and a total below 10^12 öre the closing
      post is 32 characters plus the sign flag and gives back the count,
      |total| and the sign. */
  lemma GenerateFileClosing(order: Order, today: Date)
    requires CompanyBank(order).Success?
    requires |order.lines| < Pow10(8) && Abs(Total(order.lines)) < Pow10(AmountWidth)
    ensures var p := ClosingPost(CompanyBank(order).value, |order.lines|, Total(order.lines));
      && |p| == 32 + (if Total(order.lines) < 0 then 1 else 0)
      && OnlyDigits(p[12..20]) && OnlyDigits(p[20..32])
      && DecimalValue(p[12..20]) == |order.lines|
      && DecimalValue(p[20..32]) == Abs(Total(order.lines))
      && (p[|p| - 1] == '-' <==> Total(order.lines) < 0)
  {
    ClosingPostLayout(CompanyBank(order).value, |order.lines|, Total(order.lines));
  }

  /** The wizard: the payment order it was opened on and the file content
      its builders append to. */
  class BgFileGenerator {
    var paymentOrder: Order
    var fileContent: string

    constructor ()
      ensures paymentOrder == Order(None, None, []) && fileContent == ""
    {
      paymentOrder := Order(None, None, []);
      fileContent := "";
    }

    /** action_generate_file: takes the active payment order, refuses one
      without lines, and appends the three parts to an emptied content. */
    method ActionGenerateFile(order: Order, today: Date) returns (r: Result<string>)
      modifies this
      ensures paymentOrder == order
      ensures r == GenerateFile(order, today)
      ensures r.Success? ==> fileContent == r.value
      ensures order.lines == [] ==> fileContent == old(fileContent)
      ensures order.lines != [] && CompanyBank(order).Failure? ==> fileContent == OpeningCode
      ensures order.lines != [] && CompanyBank(order).Success? && BuildRecords(order, order.lines, today).Failure? ==>
                fileContent == OpeningPost(CompanyBank(order).value, today)
    {
      paymentOrder := order;
      if paymentOrder.lines == [] {
        return Failure(NoPaymentLines);
      }
      fileContent := "";
      var e := CreateOpeningPost(today);
      if e.Some? {
        return Failure(e.value);
      }
      var company := CompanyBank(order).value;
      assert fileContent == OpeningPost(company, today);
      e := CreatePaymentLines(today);
      if e.Some? {
        assert BuildRecords(order, order.lines, today).Failure?;
        return Failure(e.value);
      }
      var records := BuildRecords(order, order.lines, today).value;
      e := CreateClosingPost();
      assert fileContent == GenerateFile(order, today).value;
      r := match e
        case None => Success(fileContent)
        case Some(err) => Failure(err);
    }

    /** _create_opening_post: "11" goes in before the company bank is checked. */
    method CreateOpeningPost(today: Date) returns (e: Option<Error>)
      modifies this
      ensures paymentOrder == old(paymentOrder)
      ensures CompanyBank(paymentOrder).Failure? ==>
                e == Some(CompanyBank(paymentOrder).error) && fileContent == old(fileContent) + OpeningCode
      ensures CompanyBank(paymentOrder).Success? ==>
                e == None && fileContent == old(fileContent) + OpeningPost(CompanyBank(paymentOrder).value, today)
    {
      fileContent := fileContent + OpeningCode;
      var company := CompanyBank(paymentOrder);
      if company.Failure? {
        return Some(company.error);
      }
      fileContent := fileContent + AccountField(company.value);
      fileContent := fileContent + Yymmdd(today);
      fileContent := fileContent + Header;
      AppendFour(old(fileContent), OpeningCode, AccountField(company.value), Yymmdd(today), Header);
      e := None;
    }

    /** _create_payment_lines: builds the records line by line, sorts them
      in place and appends them joined; nothing is appended on an error. */
    method CreatePaymentLines(today: Date) returns (e: Option<Error>)
      modifies this
      ensures paymentOrder == old(paymentOrder)
      ensures var built := BuildRecords(paymentOrder, paymentOrder.lines, today);
        built.Failure? ==> e == Some(built.error) && fileContent == old(fileContent)
      ensures var built := BuildRecords(paymentOrder, paymentOrder.lines, today);
        built.Success? ==> e == None && fileContent == old(fileContent) + JoinRecords(SortRecords(built.value))
    {
      var order := paymentOrder;
      var lines := order.lines;
      var f := LineRecord(order, today);
      var paymentLines: seq<PaymentRecord> := [];
      for i := 0 to |lines|
        invariant CollectAll(lines[..i], f) == Success(paymentLines)
        invariant fileContent == old(fileContent) && paymentOrder == order
      {
        CollectAllStep(lines, f, i);
        var r := BuildRecord(order, lines[i], today);
        assert r == f(lines[i]);
        if r.Failure? {
          return Some(r.error);
        }
        paymentLines := paymentLines + [r.value];
      }
      assert lines[..|lines|] == lines;
      var text := JoinSorted(paymentLines);
      fileContent := fileContent + text;
      e := None;
    }

    /** _create_closing_post: "29" goes in before the company bank is checked again. */
    method CreateClosingPost() returns (e: Option<Error>)
      modifies this
      ensures paymentOrder == old(paymentOrder)
      ensures CompanyBank(paymentOrder).Failure? ==>
                e == Some(CompanyBank(paymentOrder).error) && fileContent == old(fileContent) + ClosingCode
      ensures CompanyBank(paymentOrder).Success? ==>
                e == None && fileContent == old(fileContent)
                  + ClosingPost(CompanyBank(paymentOrder).value, |paymentOrder.lines|, Total(paymentOrder.lines))
    {
      fileContent := fileContent + ClosingCode;
      var company := CompanyBank(paymentOrder);
      if company.Failure? {
        return Some(company.error);
      }
      var lines := paymentOrder.lines;
      fileContent := fileContent + AccountField(company.value);
      fileContent := fileContent + CountField(|lines|);
      fileContent := fileContent + AmountField(Total(lines));
      fileContent := fileContent + NegativeMark(Total(lines));
      AppendFive(old(fileContent), ClosingCode, AccountField(company.value), CountField(|lines|),
        AmountField(Total(lines)), NegativeMark(Total(lines)));
      e := None;
    }
  }
}
