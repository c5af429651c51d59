/** The payment-file builder of the account.payment.order model: the
    company Bankgiro number, one record per bank payment line, the stable
    sort, and the opening and closing posts appended to the file content. */
module PaymentOrder {
  import opened Strings
  import opened AccountNumbers
  import opened StableSort
  import opened BankgiroFormat

  /** A bank payment line as the builder reads it: the partner's name, the
      partner bank record (if any), amount_currency in öre, the currency
      name, the communication, the payment date (if set) and, for each
      grouped payment line, the name of its journal entry (if set). */
  datatype BankPaymentLine = BankPaymentLine(
    partner: string,
    partnerBank: Option<BankAccount>,
    amount: int,
    currency: string,
    communication: string,
    date: Option<Date>,
    moveNames: seq<Option<string>>)

  /** _company_bank: the company's Bankgiro number with every hyphen removed;
      an error when there is no bank account or it is not a Bankgiro one. */
  function CompanyBank(bank: Option<BankAccount>): (r: Result<string>)
    ensures bank.None? ==> r == Failure(NoCompanyBank)
    ensures bank.Some? && bank.value.accType != Bankgiro ==>
              r == Failure(CompanyNotBankgiro(bank.value.accType))
    ensures r.Success? <==> bank.Some? && bank.value.accType == Bankgiro
    ensures r.Success? ==> r.value == RemoveAll(bank.value.accNumber, '-')
    ensures r.Success? ==> '-' !in r.value
                           && forall c :: c in bank.value.accNumber && c != '-' ==> c in r.value
  {
    if bank.None? then Failure(NoCompanyBank)
    else if bank.value.accType != Bankgiro then Failure(CompanyNotBankgiro(bank.value.accType))
    else
      RemoveAllMembers(bank.value.accNumber, '-');
      Success(RemoveAll(bank.value.accNumber, '-'))
  }

  /** A company account whose type was computed from its number yields 7
      or 8 digits, so its field in both posts is exactly 10 characters. */
  lemma CompanyBankClassified(bank: BankAccount)
    requires Classified(bank) && bank.accType == Bankgiro
    ensures CompanyBank(Some(bank)).Success?
    ensures var c := CompanyBank(Some(bank)).value;
      IsDigitString(c) && 7 <= |c| <= 8 && |AccountField(c)| == AccountWidth
  {
    ClassifiedDigits(bank);
  }

  /** The account type of the line's partner bank; a line without one has
      no Bankgiro or Plusgiro type. */
  function PartnerAccType(line: BankPaymentLine): AccType {
    if line.partnerBank.Some? then line.partnerBank.value.accType else Other
  }

  /** acc_number or '' */
  function PartnerNumber(line: BankPaymentLine): string {
    if line.partnerBank.Some? then line.partnerBank.value.accNumber else ""
  }

  /** _partner_bank: the partner's account number with every hyphen removed;
      an error when nothing is left. No length limit is applied. */
  function PartnerBank(line: BankPaymentLine): (r: Result<string>)
    ensures r.Failure? <==> forall c :: c in PartnerNumber(line) ==> c == '-'
    ensures r.Failure? ==> r == Failure(NoPartnerAccount(line.partner))
    ensures r.Success? ==> r.value == RemoveAll(PartnerNumber(line), '-')
    ensures r.Success? ==> |r.value| > 0 && forall c :: c in r.value <==> c in PartnerNumber(line) && c != '-'
  {
    var acc := RemoveAll(PartnerNumber(line), '-');
    RemoveAllMembers(PartnerNumber(line), '-');
    if acc == "" then Failure(NoPartnerAccount(line.partner))
    else
      assert acc[0] in acc;
      Success(acc)
  }

  /** A partner account whose type was computed as Bankgiro or Plusgiro
      condenses to 2 to 8 digits: it always fits the 10-character field. */
  lemma PartnerBankClassified(line: BankPaymentLine)
    requires line.partnerBank.Some? && Classified(line.partnerBank.value)
    requires PartnerAccType(line) != Other
    ensures PartnerBank(line).Success?
    ensures IsDigitString(PartnerBank(line).value) && 2 <= |PartnerBank(line).value| <= 8
  {
    ClassifiedDigits(line.partnerBank.value);
  }

  /** _payment_date: the line's date, or today when it has none. */
  function PaymentDate(line: BankPaymentLine, today: Date): (d: Date)
    ensures line.date.Some? ==> d == line.date.value
    ensures line.date.None? ==> d == today
  {
    if line.date.Some? then line.date.value else today
  }

  /** name or '' */
  function NameOrEmpty(name: Option<string>): string {
    if name.Some? then name.value else ""
  }

  /** The journal entry names in order, a missing one contributing nothing. */
  function ConcatNames(names: seq<Option<string>>): string {
    if names == [] then "" else ConcatNames(names[..|names| - 1]) + NameOrEmpty(names[|names| - 1])
  }

  /** A line without any named journal entry has an empty concatenation. */
  lemma {:induction false} ConcatNamesUnnamed(names: seq<Option<string>>)
    requires forall i :: 0 <= i < |names| ==> names[i].None?
    ensures ConcatNames(names) == ""
  {
    if names != [] { ConcatNamesUnnamed(names[..|names| - 1]); }
  }

  /** One named entry alone is its own concatenation. */
  lemma ConcatNamesSingle(name: string)
    ensures ConcatNames([Some(name)]) == name
  {
    assert [Some(name)][..0] == [];
  }

  /** The entries of two runs give the names of the first run, then those of
      the second. */
  lemma {:induction false} ConcatNamesConcat(a: seq<Option<string>>, b: seq<Option<string>>)
    ensures ConcatNames(a + b) == ConcatNames(a) + ConcatNames(b)
    decreases |b|
  {
    if b == [] {
      assert a + b == a;
    } else {
      var b', last := b[..|b| - 1], b[|b| - 1];
      assert (a + b)[..|a + b| - 1] == a + b' && (a + b)[|a + b| - 1] == last;
      assert ConcatNames(a + b) == ConcatNames(a + b') + NameOrEmpty(last);
      assert ConcatNames(b) == ConcatNames(b') + NameOrEmpty(last);
      ConcatNamesConcat(a, b');
      var u, v, w := ConcatNames(a), ConcatNames(b'), NameOrEmpty(last);
      assert (u + v) + w == u + (v + w);
    }
  }

  /** The internal reference _internal_ref returns: the last 20 characters
      of the concatenated names, all of them when there are at most 20. */
  function InternalRefOf(names: seq<Option<string>>): (ref: string)
    ensures var all := ConcatNames(names);
      && |ref| == (if |all| < 20 then |all| else 20)
      && all == all[..|all| - |ref|] + ref
  {
    Tail(ConcatNames(names), 20)
  }

  /** _internal_ref: accumulates the names in a loop, then keeps the tail. */
  method InternalRef(names: seq<Option<string>>) returns (ref: string)
    ensures ref == InternalRefOf(names)
  {
    var acc := "";
    for i := 0 to |names|
      invariant acc == ConcatNames(names[..i])
    {
      assert names[..i + 1][..i] == names[..i];
      acc := acc + NameOrEmpty(names[i]);
    }
    assert names[..|names|] == names;
    ref := Tail(acc, 20);
  }

  /** The record of one bank line. The helpers run in the order of the
      list the builder appends to, so the first failing one gives the error:
      transaction code, then partner account, then amount. */
  function BuildRecord(line: BankPaymentLine, today: Date): (r: Result<PaymentRecord>)
    ensures var t := PaymentType(PartnerAccType(line), line.amount, line.partner);
      t.Failure? ==> r == Failure(t.error)
    ensures var t := PaymentType(PartnerAccType(line), line.amount, line.partner);
      (t.Success? && PartnerBank(line).Failure?) ==> r == Failure(PartnerBank(line).error)
    ensures var t := PaymentType(PartnerAccType(line), line.amount, line.partner);
      var m := PaymentAmount(line.amount, line.currency, line.partner);
      (t.Success? && PartnerBank(line).Success? && m.Failure?) ==> r == Failure(m.error)
    ensures r.Success? <==>
      && PaymentType(PartnerAccType(line), line.amount, line.partner).Success?
      && PartnerBank(line).Success?
      && PaymentAmount(line.amount, line.currency, line.partner).Success?
  {
    var code :- PaymentType(PartnerAccType(line), line.amount, line.partner);
    var account :- PartnerBank(line);
    var amount :- PaymentAmount(line.amount, line.currency, line.partner);
    Success(PaymentRecord(
      code,
      AccountField(account),
      ReferenceField(line.communication),
      RJust(amount, AmountWidth, '0'),
      Yymmdd(PaymentDate(line, today)),
      InternalRefOf(line.moveNames)))
  }

  /** What each field of a built record holds. */
  lemma BuildRecordFields(line: BankPaymentLine, today: Date)
    requires BuildRecord(line, today).Success?
    ensures var r := BuildRecord(line, today).value;
      && (r.code == "14" <==> PartnerAccType(line) == Bankgiro && line.amount >= 0)
      && (r.code == "16" <==> PartnerAccType(line) == Bankgiro && line.amount < 0)
      && (r.code == "54" <==> PartnerAccType(line) == Plusgiro && line.amount > 0)
      && r.account == AccountField(PartnerBank(line).value)
      && OnlyDigits(r.amount) && |r.amount| == AmountWidth
      && DecimalValue(r.amount) == Abs(line.amount)
      && line.currency == "SEK"
      && r.reference == ReferenceField(line.communication)
      && r.date == Yymmdd(PaymentDate(line, today))
      && r.internalRef == InternalRefOf(line.moveNames)
  {
    var amount := PaymentAmount(line.amount, line.currency, line.partner).value;
    ZeroFillValue(amount, AmountWidth);
  }

  /** A condensed partner account of at most 10 characters gives a record
      of 60 characters, at most 20 of internal reference and the line end;
      a longer one widens the record by the excess. */
  lemma BuildRecordWidths(line: BankPaymentLine, today: Date)
    requires BuildRecord(line, today).Success?
    ensures var r := BuildRecord(line, today).value;
      && |r.internalRef| <= 20
      && (|PartnerBank(line).value| <= AccountWidth <==> FixedWidths(r))
      && (FixedWidths(r) ==> 62 <= |RecordText(r)| <= 82 && ParseRecord(RecordText(r)) == r)
      && (|PartnerBank(line).value| > AccountWidth ==> r.account == PartnerBank(line).value)
  {
    BuildRecordFields(line, today);
    var r := BuildRecord(line, today).value;
    if FixedWidths(r) { RecordRoundTrip(r); }
  }

  /** The builder of one line's record on a given day. */
  function LineRecord(today: Date): BankPaymentLine -> Result<PaymentRecord> {
    line => BuildRecord(line, today)
  }

  /** The records of all lines in order, or the error of the first line
      that fails: the loop of _create_payment_lines. */
  function BuildRecords(lines: seq<BankPaymentLine>, today: Date): (r: Result<seq<PaymentRecord>>)
    ensures r.Success? ==> |r.value| == |lines|
  {
    CollectAll(lines, LineRecord(today))
  }

  /** sum(line.amount_currency for line in bank_line_ids); only payments
      give a total that is not negative, only credits one that is not positive. */
  function Total(lines: seq<BankPaymentLine>): (t: int)
    ensures (forall i :: 0 <= i < |lines| ==> lines[i].amount >= 0) ==> t >= 0
    ensures (forall i :: 0 <= i < |lines| ==> lines[i].amount <= 0) ==> t <= 0
  {
    if lines == [] then 0 else Total(lines[..|lines| - 1]) + lines[|lines| - 1].amount
  }

  /** The whole file generate_payment_file builds: the opening post, the
      sorted records and the closing post, or the first error raised —
      the company account's before any line's. */
  function PaymentFile(company: Option<BankAccount>, lines: seq<BankPaymentLine>, today: Date): (r: Result<string>)
    ensures CompanyBank(company).Failure? ==> r == Failure(CompanyBank(company).error)
    ensures CompanyBank(company).Success? && BuildRecords(lines, today).Failure? ==>
              r == Failure(BuildRecords(lines, today).error)
    ensures r.Success? <==> CompanyBank(company).Success? && BuildRecords(lines, today).Success?
  {
    var companyBg :- CompanyBank(company);
    var records :- BuildRecords(lines, today);
    Success(OpeningPost(companyBg, today) + JoinRecords(SortRecords(records))
      + ClosingPost(companyBg, |lines|, Total(lines)))
  }

  /** A file is produced iff the company account is a Bankgiro one and every
      line has a valid type, a partner account and a fitting SEK amount. */
  lemma PaymentFileSucceeds(company: Option<BankAccount>, lines: seq<BankPaymentLine>, today: Date)
    ensures PaymentFile(company, lines, today).Success? <==>
      && company.Some? && company.value.accType == Bankgiro
      && forall i :: 0 <= i < |lines| ==>
           && PaymentType(PartnerAccType(lines[i]), lines[i].amount, lines[i].partner).Success?
           && PartnerBank(lines[i]).Success?
           && Abs(lines[i].amount) < Pow10(AmountWidth) && lines[i].currency == "SEK"
  {
    CollectAllSuccess(lines, LineRecord(today));
    assert forall i :: 0 <= i < |lines| ==> LineRecord(today)(lines[i]) == BuildRecord(lines[i], today);
  }

  /** The records of a produced file are the built records, sorted by
      (account field, code) and stable: the same records, in key order, and
      those with equal keys in the order of their lines. */
  lemma PaymentFileRecords(company: Option<BankAccount>, lines: seq<BankPaymentLine>, today: Date)
    requires PaymentFile(company, lines, today).Success?
    ensures var records := BuildRecords(lines, today).value;
      var sorted := SortRecords(records);
      && PaymentFile(company, lines, today).value
         == OpeningPost(CompanyBank(company).value, today) + JoinRecords(sorted)
            + ClosingPost(CompanyBank(company).value, |lines|, Total(lines))
      && Sorted(sorted, KeyOf, KeyBefore)
      && multiset(sorted) == multiset(records)
      && (forall k :: WithKey(sorted, KeyOf, k) == WithKey(records, KeyOf, k))
  {
    var records := BuildRecords(lines, today).value;
    KeyOrder();
    SortSorted(records, KeyOf, KeyBefore);
    SortPermutation(records, KeyOf, KeyBefore);
    forall k ensures WithKey(SortRecords(records), KeyOf, k) == WithKey(records, KeyOf, k) {
      SortStable(records, KeyOf, KeyBefore, k);
    }
  }

  /** With a classified company account, a line count below 10^8 and a total
      below 10^12 öre, the closing post gives back the count and |total|
      and flags a negative total. */
  lemma PaymentFileClosing(company: BankAccount, lines: seq<BankPaymentLine>)
    requires Classified(company) && company.accType == Bankgiro
    requires |lines| < Pow10(8) && Abs(Total(lines)) < Pow10(AmountWidth)
    ensures var p := ClosingPost(CompanyBank(Some(company)).value, |lines|, Total(lines));
      && |p| == 32 + (if Total(lines) < 0 then 1 else 0) && OnlyDigits(p[12..20]) && OnlyDigits(p[20..32])
      && DecimalValue(p[12..20]) == |lines|
      && DecimalValue(p[20..32]) == Abs(Total(lines))
      && (p[|p| - 1] == '-' <==> Total(lines) < 0)
  {
    CompanyBankClassified(company);
    ClosingPostLayout(CompanyBank(Some(company)).value, |lines|, Total(lines));
  }

  /** The payment order being turned into a file: the company's bank record,
      the bank payment lines, and the file content the builders append to. */
  class AccountPaymentOrder {
    const companyBank: Option<BankAccount>
    const bankLines: seq<BankPaymentLine>
    var fileContent: string

    constructor (companyBank: Option<BankAccount>, bankLines: seq<BankPaymentLine>)
      ensures this.companyBank == companyBank && this.bankLines == bankLines
      ensures fileContent == ""
    {
      this.companyBank := companyBank;
      this.bankLines := bankLines;
      fileContent := "";
    }

    /** generate_payment_file: clears the content and appends the three
      parts; on an error the content holds what was appended before it. */
    method GeneratePaymentFile(today: Date) returns (r: Result<string>)
      modifies this
      ensures r == PaymentFile(companyBank, bankLines, today)
      ensures r.Success? ==> fileContent == r.value
      ensures CompanyBank(companyBank).Failure? ==> fileContent == OpeningCode
      ensures CompanyBank(companyBank).Success? && BuildRecords(bankLines, today).Failure? ==>
                fileContent == OpeningPost(CompanyBank(companyBank).value, today)
    {
      fileContent := "";
      var e := CreateOpeningPost(today);
      if e.Some? {
        return Failure(e.value);
      }
      var company := CompanyBank(companyBank).value;
      assert fileContent == OpeningPost(company, today);
      e := CreatePaymentLines(today);
      if e.Some? {
        assert BuildRecords(bankLines, today).Failure?;
        return Failure(e.value);
      }
      var records := BuildRecords(bankLines, today).value;
      e := CreateClosingPost();
      assert fileContent == PaymentFile(companyBank, bankLines, today).value;
      r := match e
        case None => Success(fileContent)
        case Some(err) => Failure(err);
    }

    /** _create_opening_post: "11" is appended before the company account
      is looked up, so an error leaves it behind. */
    method CreateOpeningPost(today: Date) returns (e: Option<Error>)
      modifies this
      ensures CompanyBank(companyBank).Failure? ==>
                e == Some(CompanyBank(companyBank).error) && fileContent == old(fileContent) + OpeningCode
      ensures CompanyBank(companyBank).Success? ==>
                e == None && fileContent == old(fileContent) + OpeningPost(CompanyBank(companyBank).value, today)
    {
      fileContent := fileContent + OpeningCode;
      var company := CompanyBank(companyBank);
      if company.Failure? {
        return Some(company.error);
      }
      fileContent := fileContent + AccountField(company.value);
      fileContent := fileContent + Yymmdd(today);
      fileContent := fileContent + Header;
      AppendFour(old(fileContent), OpeningCode, AccountField(company.value), Yymmdd(today), Header);
      e := None;
    }

    /** One bank line's record, its internal reference built by the loop. */
    static method BuildLine(line: BankPaymentLine, today: Date) returns (r: Result<PaymentRecord>)
      ensures r == BuildRecord(line, today)
    {
      var code := PaymentType(PartnerAccType(line), line.amount, line.partner);
      if code.Failure? {
        return Failure(code.error);
      }
      var account := PartnerBank(line);
      if account.Failure? {
        return Failure(account.error);
      }
      var amount := PaymentAmount(line.amount, line.currency, line.partner);
      if amount.Failure? {
        return Failure(amount.error);
      }
      var ref := InternalRef(line.moveNames);
      r := Success(PaymentRecord(
        code.value,
        AccountField(account.value),
        ReferenceField(line.communication),
        RJust(amount.value, AmountWidth, '0'),
        Yymmdd(PaymentDate(line, today)),
        ref));
    }

    /** _create_payment_lines: builds the records line by line, sorts them
      in place and appends them joined; nothing is appended on an error. */
    method CreatePaymentLines(today: Date) returns (e: Option<Error>)
      modifies this
      ensures BuildRecords(bankLines, today).Failure? ==>
                e == Some(BuildRecords(bankLines, today).error) && fileContent == old(fileContent)
      ensures BuildRecords(bankLines, today).Success? ==>
                e == None
                && fileContent == old(fileContent) + JoinRecords(SortRecords(BuildRecords(bankLines, today).value))
    {
      var lines := bankLines;
      var f := LineRecord(today);
      var paymentLines: seq<PaymentRecord> := [];
      for i := 0 to |lines|
        invariant CollectAll(lines[..i], f) == Success(paymentLines)
        invariant fileContent == old(fileContent)
      {
        CollectAllStep(lines, f, i);
        var r := BuildLine(lines[i], today);
        assert r == f(lines[i]);
        if r.Failure? {
          return Some(r.error);
        }
        paymentLines := paymentLines + [r.value];
      }
      assert lines[..|lines|] == lines;
      var text := JoinSorted(paymentLines);
      fileContent := fileContent + text;
      e := None;
    }

    /** _create_closing_post: "29" is appended before the company account
      is looked up again. */
    method CreateClosingPost() returns (e: Option<Error>)
      modifies this
      ensures CompanyBank(companyBank).Failure? ==>
                e == Some(CompanyBank(companyBank).error) && fileContent == old(fileContent) + ClosingCode
      ensures CompanyBank(companyBank).Success? ==>
                e == None && fileContent == old(fileContent)
                  + ClosingPost(CompanyBank(companyBank).value, |bankLines|, Total(bankLines))
    {
      fileContent := fileContent + ClosingCode;
      var company := CompanyBank(companyBank);
      if company.Failure? {
        return Some(company.error);
      }
      fileContent := fileContent + AccountField(company.value);
      fileContent := fileContent + CountField(|bankLines|);
      fileContent := fileContent + AmountField(Total(bankLines));
      fileContent := fileContent + NegativeMark(Total(bankLines));
      AppendFive(old(fileContent), ClosingCode, AccountField(company.value), CountField(|bankLines|),
        AmountField(Total(bankLines)), NegativeMark(Total(bankLines)));
      e := None;
    }
  }
}
