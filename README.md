# Swedish Bankgiro supplier-payment files

This project models the core of an Odoo module. The module writes Swedish
Bankgiro "Leverantörsbetalningar" (supplier payment) files and classifies
partner account numbers as Bankgiro or Plusgiro numbers. The module has
three parts, and each has its own Dafny module:

- `AccountNumbers` (`account_numbers.dfy`) covers `models/res_partner_bank.py`.
  It has the Luhn mod-10 check as written (reverse, drop hyphens, sum the
  even positions, double the odd ones and add up the digits of the
  doubled values). It has both validators and the `acc_type` computation,
  a class `ResPartnerBank` whose `acc_type` field follows `acc_number`,
  and a reference Luhn total in reading order (ISO/IEC 7812-1, Annex B)
  that the coded check is proved to equal.
- `PaymentOrder` (`payment_order.dfy`) covers `models/account_payment_order.py`.
  This is the `account.payment.order` variant. Class
  `AccountPaymentOrder` appends the opening post, the sorted payment
  records and the closing post to `fileContent`. Its specification is the
  function `PaymentFile`.
- `PaymentOrderWizard` (`payment_order_wizard.dfy`) covers `wizard/payment_order.py`.
  This is the older `payment.order.bgfilegenerator` wizard. Class
  `BgFileGenerator` holds the order it was opened on and the file content.
  Its specification is the function `GenerateFile`. The wizard has its own
  guards: no lines, no payment mode, an empty or too long company number,
  and a too long partner number. It picks the date from three levels
  (scheduled date, line date, today). Its internal reference is not
  truncated.

The shared layout is in `BankgiroFormat` (`bankgiro_format.dfy`):

- the error kinds (one per `Warning` the code raises) and `Result`;
- amounts in öre and the transaction codes;
- the 25-character reference field and the payment record, with its
  read-back and its sort key;
- the in-place sort of the records;
- the opening and closing posts.

`Strings` (`strings.dfy`) gives the Python string operations the code uses,
with Python's meaning:

- `rjust` and `ljust` pad but never cut;
- `s[-n:]`, `replace` with and without a count, `isdigit`, `str(n)` on a
  natural number and `int` on digits;
- `s[::-1]` and the `<` order on `str`.

`StableSort` (`stable_sort.dfy`) models `list.sort` with a key. It is an
insertion sort that is proved sorted, a permutation and stable. It is also
proved to be the only sequence with those three properties, so it gives
the same result as Python's sort.

Some consequences of the code as written:

- The validators accept neither 123-4561 nor 9912345. The first has a
  Luhn total of 25, and the second has no hyphen
  (`SampleNumberRejected`, `UnhyphenatedSampleRejected`).
- Neither variant checks that the line count fits its 8 columns or that the
  total fits its 12 columns. A larger value makes the closing post longer
  (`CountField` and `AmountField` state both sides).
- The `models/` variant has no length check on the partner account. A
  condensed number longer than 10 characters goes into the record unpadded
  (`BuildRecordWidths`).
- The wizard's docstring promises an internal reference of at most 20
  characters. The code does not cut it (`BuildRecordLayout`).

## Model

| member | source | states |
|---|---|---|
| Strings.Str | models/account_payment_order.py:209 | str(n) of a natural number is a non-empty digit string with no leading zero |
| Strings.StrValue | models/account_payment_order.py:209 | reading str(n) back as a decimal gives n |
| Strings.StrLength | models/account_payment_order.py:180 | str(n) has at most k digits exactly when n < 10^k |
| Strings.RJust | models/account_payment_order.py:67 | rjust gives max(width, len) characters: fill on the left, then s unchanged (never cut) |
| Strings.LJust | models/account_payment_order.py:89 | ljust gives max(width, len) characters: s unchanged, then fill on the right |
| Strings.ZeroFillValue | models/account_payment_order.py:90 | zero-filling a digit string on the left keeps it a digit string of the same value |
| Strings.Tail | models/account_payment_order.py:171 | s[-n:] is the last min(n, len) characters of s |
| Strings.RemoveAll | models/account_payment_order.py:133 | replace(c, '') keeps only characters of s other than c and never grows |
| Strings.RemoveAllMembers | models/account_payment_order.py:133 | replace(c, '') keeps exactly the characters of s other than c |
| Strings.RemoveAllReverse | models/res_partner_bank.py:29 | removing hyphens commutes with reversing, so number[::-1].replace('-', '') is the reversed condensed number |
| Strings.RemoveFirst | models/res_partner_bank.py:44 | replace('-', '', 1) loses no character other than '-' |
| Strings.Reverse | models/res_partner_bank.py:29 | s[::-1] has the characters of s in mirrored positions |
| Strings.StrLess | models/account_payment_order.py:99 | Python's `<` on str: lexicographic by code point, a proper prefix first; its order properties are stated by StrLessTotal and StrLessTransitive |
| Strings.StrLessTotal | models/account_payment_order.py:99 | any two distinct str keys are ordered one way or the other |
| Strings.StrLessTransitive | models/account_payment_order.py:99 | the str order is transitive |
| AccountNumbers.Digits | models/res_partner_bank.py:29 | `[int(x) for x in ...]`: one digit per character, the i-th worth the i-th character |
| AccountNumbers.EverySecond | models/res_partner_bank.py:32 | `digits[::2]`: the elements at even positions, (n + 1) / 2 of them |
| AccountNumbers.FromSecond | models/res_partner_bank.py:35 | `digits[1::2]`: the elements at odd positions |
| AccountNumbers.Doubled | models/res_partner_bank.py:35 | `map(lambda x: x*2, ...)`: each digit doubled, one per digit |
| AccountNumbers.JoinDecimal | models/res_partner_bank.py:38 | `''.join(map(str, ...))`: the decimal forms joined, a digit string |
| AccountNumbers.CharDigitSum | models/res_partner_bank.py:38 | `sum(int(x) for x in ...)`: the sum of the digit values of a digit string |
| AccountNumbers.LuhnCheck | models/res_partner_bank.py:25-40 | luhn_check as coded: reverse, drop hyphens, sum the digits at even positions, add the digit sums of the doubled digits at odd positions, test mod 10; what it computes is stated by LuhnCheckMeaning |
| AccountNumbers.LuhnCheckMeaning | models/res_partner_bank.py:25-40 | luhn_check holds exactly when the reference Luhn total of the condensed digits, read left to right (rightmost digit counted as is, every second one to its left doubled with digit sum), is divisible by 10 |
| AccountNumbers.LuhnIgnoresHyphens | models/res_partner_bank.py:29 | luhn_check of a number equals luhn_check of the number with every hyphen removed |
| AccountNumbers.RemoveFirstHyphen | models/res_partner_bank.py:44-46 | deleting the first hyphen leaves a digit string and index k is a hyphen exactly when k holds the single hyphen among digits |
| AccountNumbers.BgValidator | models/res_partner_bank.py:42-49 | bg_validator as coded: digits once one hyphen is removed, 8 or 9 characters, '-' fifth from the end, luhn_check; its meaning is stated by BgValidatorMeaning |
| AccountNumbers.PgValidator | models/res_partner_bank.py:51-58 | pg_validator as coded: digits once one hyphen is removed, 3 to 9 characters, '-' second from the end, luhn_check; its meaning is stated by PgValidatorMeaning |
| AccountNumbers.BgValidatorMeaning | models/res_partner_bank.py:42-49 | bg_validator holds exactly for 8 or 9 characters, the single hyphen fifth from the end, digits elsewhere, and a valid Luhn total |
| AccountNumbers.PgValidatorMeaning | models/res_partner_bank.py:51-58 | pg_validator holds exactly for 3 to 9 characters, the single hyphen second from the end, digits elsewhere, and a valid Luhn total |
| AccountNumbers.HyphenCountRejected | models/res_partner_bank.py:44-55 | a number with no hyphen or with two hyphens is rejected by both validators |
| AccountNumbers.ValidatorsExclusive | models/res_partner_bank.py:42-58 | no number passes both validators |
| AccountNumbers.AccTypeOf | models/res_partner_bank.py:66-75 | _compute_acc_type's choice: Bankgiro if bg_validator holds, else Plusgiro if pg_validator holds, else other (the parent's result for empty and unknown numbers); stated by AccTypeOfMeaning |
| AccountNumbers.AccTypeOfMeaning | models/res_partner_bank.py:66-75 | the computed type is Bankgiro iff bg_validator holds, Plusgiro iff pg_validator holds, and other iff neither does |
| AccountNumbers.ClassifiedDigits | models/res_partner_bank.py:42-58 | a number classified Bankgiro condenses to 7 or 8 digits, one classified Plusgiro to 2 to 8 digits |
| AccountNumbers.ResPartnerBank.constructor | models/res_partner_bank.py:64-75 | a new bank record has its acc_type computed from acc_number |
| AccountNumbers.ResPartnerBank.ComputeAccType | models/res_partner_bank.py:64-75 | _compute_acc_type sets acc_type to Bankgiro iff bg_validator holds and to Plusgiro iff pg_validator holds, else other; acc_number is untouched |
| AccountNumbers.ResPartnerBank.SetAccNumber | models/res_partner_bank.py:65 | writing acc_number recomputes acc_type, so the record stays classified |
| AccountNumbers.BankgiroExample | models/res_partner_bank.py:42-49 | 5050-1055 is a valid Bankgiro number |
| AccountNumbers.PlusgiroExample | models/res_partner_bank.py:51-58 | 1-8 is a valid Plusgiro number |
| AccountNumbers.SampleNumberRejected | models/res_partner_bank.py:42-58 | 123-4561 passes neither validator (its Luhn total is 25) |
| AccountNumbers.UnhyphenatedSampleRejected | models/res_partner_bank.py:44-55 | 9912345 passes neither validator (no hyphen) |
| StableSort.SortBy | models/account_payment_order.py:99 | a stable insertion sort by key, of the same length as its input; its properties are stated by SortPermutation, SortSorted and SortStable |
| StableSort.SortPermutation | models/account_payment_order.py:99 | sorting keeps exactly the multiset of elements |
| StableSort.SortSorted | models/account_payment_order.py:99 | under a strict total order on keys, the sorted sequence is ordered by key |
| StableSort.SortStable | models/account_payment_order.py:99 | for every key, the elements with that key keep their original order |
| StableSort.SortedUnique | models/account_payment_order.py:99 | two key-ordered sequences with the same elements per key, in the same order, are equal |
| StableSort.StableSortIsSortBy | models/account_payment_order.py:99 | any sorted, stable rearrangement (such as Python's list.sort) equals the modelled sort |
| BankgiroFormat.CollectAll | models/account_payment_order.py:84-95 | the loop over the lines, stopping at the first error: on success one record per line; its meaning is stated by CollectAllSuccess and CollectAllFirstError |
| BankgiroFormat.CollectAllSuccess | models/account_payment_order.py:84-95 | building all records succeeds iff every line builds, and the i-th record is the i-th line's |
| BankgiroFormat.CollectAllFirstError | models/account_payment_order.py:84-95 | the first line that fails decides the error of the whole build |
| BankgiroFormat.CollectAllStep | models/account_payment_order.py:84-95 | one more successful line appends its record and a failing one ends the build with its error |
| BankgiroFormat.Yymmdd | models/account_payment_order.py:199 | the date is 6 digits: year mod 100, month, day |
| BankgiroFormat.FixedPoint2 | models/account_payment_order.py:175 | '{0:.2f}' of an öre amount: '-' for a negative amount, the kronor, '.', two öre digits |
| BankgiroFormat.AmountDigits | models/account_payment_order.py:175-177 | the formatted amount with '.', ',' and '-' removed; its value is stated by AmountDigitsMeaning |
| BankgiroFormat.AmountDigitsMeaning | models/account_payment_order.py:175-177 | formatting with two decimals and removing '.', ',' and '-' gives str(abs(amount)) zero-filled to 3 digits, whose value is abs(amount); it fits 12 columns iff abs(amount) < 10^12 |
| BankgiroFormat.PaymentAmount | models/account_payment_order.py:173-191 | the amount fails as too big exactly when abs(amount) >= 10^12, that check coming first, then as not SEK; on success 3 to 12 digits worth abs(amount) |
| BankgiroFormat.PaymentType | models/account_payment_order.py:137-154 | code 14 iff Bankgiro and amount >= 0, 16 iff Bankgiro and amount < 0, 54 iff Plusgiro and amount > 0; the Plusgiro non-positive error and the bad-type error exactly in the other cases |
| BankgiroFormat.ReferenceField | models/account_payment_order.py:169-171 | the reference field is always 25 characters: the last min(25, len) characters of the communication, then spaces |
| BankgiroFormat.RecordText | models/account_payment_order.py:84-93 | one record's text: code, partner field, reference, amount, date, 5 spaces, internal reference, CRLF; its layout is stated by RecordRoundTrip |
| BankgiroFormat.RecordRoundTrip | models/account_payment_order.py:84-93 | a record with its fixed widths is 62 characters plus its internal reference, has 5 spaces at 55-60, ends in CRLF, and reads back field by field |
| BankgiroFormat.JoinRecords | models/account_payment_order.py:102 | ''.join of all fields of all records in order; its length is stated by JoinRecordsLength |
| BankgiroFormat.JoinRecordsLength | models/account_payment_order.py:102 | the joined records are 62 characters per record plus their internal references |
| BankgiroFormat.SortRecords | models/account_payment_order.py:99 | payment_lines.sort(key=lambda x: (x[1], x[0])): the stable sort by (account field, code), of the same length as its input; its order, permutation and stability are stated by KeyOrder and the StableSort lemmas |
| BankgiroFormat.KeyOf | models/account_payment_order.py:99 | `lambda x: (x[1], x[0])`: the padded partner account, then the transaction code |
| BankgiroFormat.KeyBefore | models/account_payment_order.py:99 | tuple `<` on that key: accounts compared as str, the code deciding between equal accounts; KeyOrder proves it a strict total order |
| BankgiroFormat.KeyOrder | models/account_payment_order.py:99 | the (account field, code) key order is a strict total order |
| BankgiroFormat.CreditsAfterPayments | models/account_payment_order.py:97-99 | in sorted records of one account, no credit (16) comes before a payment (14) |
| BankgiroFormat.InsertInPlace | models/account_payment_order.py:99 | shifting a[i] left into the ordered prefix gives that prefix with a[i] inserted stably, and leaves the rest of the array unchanged |
| BankgiroFormat.SortPaymentLines | models/account_payment_order.py:99 | sorting the array in place leaves exactly the stable sort by (account field, code) of its old contents |
| BankgiroFormat.JoinSorted | models/account_payment_order.py:99-102 | the text appended for the records is the join of their stable sort by (account field, code) |
| BankgiroFormat.AccountField | models/account_payment_order.py:88 | the account field is exactly 10 characters for up to 10, the number itself beyond, and keeps a digit number's value |
| BankgiroFormat.CountField | models/account_payment_order.py:115 | the count column is digits worth the count; 8 wide exactly when the count is below 10^8, wider otherwise |
| BankgiroFormat.AmountField | models/account_payment_order.py:116 | the total column is digits worth abs(total); 12 wide exactly when abs(total) < 10^12, wider otherwise |
| BankgiroFormat.NegativeMark | models/account_payment_order.py:220-227 | the sign flag is '-' iff the total is negative and empty otherwise |
| BankgiroFormat.OpeningPost | models/account_payment_order.py:58-69 | 11, the company field, YYMMDD, the header and CRLF; its layout is stated by OpeningPostLayout |
| BankgiroFormat.OpeningPostLayout | models/account_payment_order.py:58-69 | for a company number of up to 10 characters the opening post is 42 characters: 11, the 10-character company field, YYMMDD, the header with CRLF |
| BankgiroFormat.ClosingPost | models/account_payment_order.py:104-117 | 29, the company field, the count field, the total field and the sign mark; its layout is stated by ClosingPostLayout |
| BankgiroFormat.ClosingPostLayout | models/account_payment_order.py:104-117 | when count and total fit, the closing post is 29, the company field, 8 digits worth the count, 12 digits worth abs(total), and a last '-' iff the total is negative |
| PaymentOrder.CompanyBank | models/account_payment_order.py:119-135 | no company bank, then a non-Bankgiro one, are errors; otherwise the result is exactly the number with all hyphens removed |
| PaymentOrder.CompanyBankClassified | models/account_payment_order.py:119-135 | a classified Bankgiro company account gives 7 or 8 digits and a 10-character field |
| PaymentOrder.PartnerBank | models/account_payment_order.py:156-167 | the partner number fails exactly when it has nothing but hyphens; otherwise it is the number with every hyphen removed, non-empty |
| PaymentOrder.PartnerBankClassified | models/account_payment_order.py:156-167 | a classified Bankgiro or Plusgiro partner account condenses to 2 to 8 digits |
| PaymentOrder.PaymentDate | models/account_payment_order.py:193-199 | the line's date if set, else today |
| PaymentOrder.ConcatNames | models/account_payment_order.py:203-205 | the names of the line's journal entries concatenated in order, an unnamed entry adding nothing |
| PaymentOrder.ConcatNamesUnnamed | models/account_payment_order.py:203-205 | journal entries without a name add nothing to the reference |
| PaymentOrder.ConcatNamesSingle | models/account_payment_order.py:203-205 | one named entry gives its name |
| PaymentOrder.ConcatNamesConcat | models/account_payment_order.py:203-205 | the entries of two runs give the first run's names followed by the second's |
| PaymentOrder.InternalRefOf | models/account_payment_order.py:201-206 | the internal reference is the last min(20, len) characters of the concatenated entry names |
| PaymentOrder.InternalRef | models/account_payment_order.py:201-206 | the accumulating loop computes that internal reference |
| PaymentOrder.BuildRecord | models/account_payment_order.py:84-95 | a line's record fails with the code error first, then the partner-account error, then the amount error, and succeeds iff all three helpers do |
| PaymentOrder.BuildRecordFields | models/account_payment_order.py:84-93 | a built record's code follows type and sign, its account is the padded partner number, its amount 12 digits worth abs(amount) in SEK, its date and internal reference the line's |
| PaymentOrder.BuildRecordWidths | models/account_payment_order.py:84-93 | the internal reference is at most 20; the record has its fixed widths iff the partner number has at most 10 characters, and then reads back; a longer number is emitted unpadded |
| PaymentOrder.BuildRecords | models/account_payment_order.py:84-95 | the records of all lines, or the first failing line's error; one record per line on success |
| PaymentOrder.Total | models/account_payment_order.py:211-227 | the sum of the line amounts; not negative when no line is a credit, not positive when no line is a payment |
| PaymentOrder.PaymentFile | models/account_payment_order.py:43-47 | the file fails with the company error first, then the first line error, and succeeds iff neither occurs |
| PaymentOrder.PaymentFileSucceeds | models/account_payment_order.py:43-47 | the file is produced iff the company bank is Bankgiro and every line has a valid type and sign, a partner number, an amount below 10^12 öre and SEK |
| PaymentOrder.PaymentFileRecords | models/account_payment_order.py:43-102 | the file is opening post, records and closing post; the records are ordered by (account, code), a permutation of the built ones, and stable per key |
| PaymentOrder.PaymentFileClosing | models/account_payment_order.py:104-117 | with fewer than 10^8 lines and a total below 10^12 öre the closing post is 32 characters plus the sign flag and gives back the count, abs(total) and the sign |
| PaymentOrder.AccountPaymentOrder.constructor | models/account_payment_order.py:43 | stands for the ORM creating the order record: the content starts from the empty string the generate method resets it to |
| PaymentOrder.AccountPaymentOrder.GeneratePaymentFile | models/account_payment_order.py:36-56 | the appended content is the file exactly when it is produced; on an error the content built up to it is left |
| PaymentOrder.AccountPaymentOrder.CreateOpeningPost | models/account_payment_order.py:58-69 | 11 is appended before the company check; on success the whole opening post is appended |
| PaymentOrder.AccountPaymentOrder.BuildLine | models/account_payment_order.py:84-93 | the six helpers' results are combined into the line's record |
| PaymentOrder.AccountPaymentOrder.CreatePaymentLines | models/account_payment_order.py:71-102 | appends nothing on the first failing line, else the stably sorted records joined |
| PaymentOrder.AccountPaymentOrder.CreateClosingPost | models/account_payment_order.py:104-117 | 29 is appended before the company check; on success the whole closing post is appended |
| PaymentOrderWizard.CompanyBank | wizard/payment_order.py:130-160 | errors in order: no payment mode, no bank, state not Bankgiro, empty number, more than 10 characters; otherwise the condensed number, 1 to 10 characters without hyphens |
| PaymentOrderWizard.PartnerBank | wizard/payment_order.py:181-198 | the condensed partner number fails when empty, then when longer than 10; otherwise it is 1 to 10 characters without hyphens |
| PaymentOrderWizard.PaymentDate | wizard/payment_order.py:225-236 | the order's scheduled date, else the line's date, else today |
| PaymentOrderWizard.InternalRef | wizard/payment_order.py:238-240 | the invoice number, or the empty string when there is none |
| PaymentOrderWizard.BuildRecord | wizard/payment_order.py:95-106 | a line's record fails with the code error first, then the partner-account error, then the amount error, and succeeds iff all three helpers do |
| PaymentOrderWizard.BuildRecordLayout | wizard/payment_order.py:95-106 | every built record has its fixed widths and reads back; its amount is worth abs(amount); its internal reference is the whole invoice number |
| PaymentOrderWizard.BuiltRecordsLayout | wizard/payment_order.py:95-106 | when every line builds there is one record per line, each with fixed widths |
| PaymentOrderWizard.BuildRecords | wizard/payment_order.py:95-106 | the records of all order lines, or the first failing line's error; one record per line on success |
| PaymentOrderWizard.Total | wizard/payment_order.py:245-261 | the sum of the line amounts; not negative when no line is a credit, not positive when no line is a payment |
| PaymentOrderWizard.GenerateFile | wizard/payment_order.py:37-50 | no lines is an error before anything else, then the company error, then the first line error; success iff none occurs |
| PaymentOrderWizard.GenerateFileLayout | wizard/payment_order.py:43-113 | a produced file is a 42-character opening post, the records ordered by (account, code), a stable permutation of the built ones with fixed widths, and the closing post |
| PaymentOrderWizard.GenerateFileClosing | wizard/payment_order.py:115-128 | with fewer than 10^8 lines and a total below 10^12 öre the closing post is 32 characters plus the sign flag and gives back the count, abs(total) and the sign |
| PaymentOrderWizard.BgFileGenerator.constructor | wizard/payment_order.py:46 | stands for the ORM creating the wizard record: no order yet, and the content starts from the empty string action_generate_file resets it to |
| PaymentOrderWizard.BgFileGenerator.ActionGenerateFile | wizard/payment_order.py:37-50 | takes the order; an order without lines leaves the content untouched; a company error leaves 11, a line error the opening post; the content is the file exactly when it is produced |
| PaymentOrderWizard.BgFileGenerator.CreateOpeningPost | wizard/payment_order.py:69-80 | 11 is appended before the company check; on success the whole opening post is appended |
| PaymentOrderWizard.BgFileGenerator.CreatePaymentLines | wizard/payment_order.py:82-113 | appends nothing on the first failing line, else the stably sorted records joined |
| PaymentOrderWizard.BgFileGenerator.CreateClosingPost | wizard/payment_order.py:115-128 | 29 is appended before the company check; on success the whole closing post is appended |

## Left out

- The file I/O is not modelled: Latin-1 encoding, base64, the `ir.attachment` record and the file name.
- The module is an Odoo module, not a standalone program. The model does not cover:
  - the ORM lifecycle (`draft2open` and the move-line overrides);
  - the `super()` fallback for payment methods other than `bg_link`;
  - reading the active record from the context. The wizard takes the order as a parameter.
- The clock is one `today` parameter. The code reads it once for the opening post (`models/account_payment_order.py:68`, `wizard/payment_order.py:79`) and once more for each line without a date (`models/account_payment_order.py:197`, `wizard/payment_order.py:234`). These readings could fall on different days; the model gives them all the same date.
- ReferenceField, JoinRecords: the model accepts any character in the communication, the journal entry names and the invoice number. Under Python 2, `str(elem)` on a unicode field with a non-ASCII character raises `UnicodeEncodeError` (`models/account_payment_order.py:102`, `wizard/payment_order.py:113`), and then no file is produced. Python's text encodings are not modelled.
- Yymmdd: the model formats any year from 1 to 9999. Python 2's `date.strftime` raises an error for a line date before 1900 (`models/account_payment_order.py:199`, `wizard/payment_order.py:236`), so such a date gives no file there.
- Floats are not modelled. `amount_currency` is integer öre, so float rounding in `'{0:.2f}'` and in the summed total is not modelled.
- Parsing dates from strings is not modelled. A date is a year, month and day; whether the day exists in that month is not checked.
- `str.isdigit` and `int` are limited to ASCII digits. Python also accepts other Unicode digits. Some characters, such as `u'²'`, pass `isdigit` but make `int` raise `ValueError`, so in Python `bg_validator(u'1234-567²')` raises from inside `luhn_check` and `_compute_acc_type` fails. The model rejects such a number instead.
- `luhn_check` on a string with characters other than digits or hyphens raises an error in Python. The model requires digits and hyphens, which the validators guarantee for ASCII input before they call it (see the line above for other Unicode digits).
- Python's Timsort is not modelled. An insertion sort is modelled instead, and `StableSort.StableSortIsSortBy` shows that any stable sort gives the same sequence.
- The parent `_compute_acc_type`, for empty and unrecognised numbers, is modelled as the type other.
- The wizard's bank `state` values are modelled with the same three kinds as `acc_type`. The error message carries that kind, not the raw state string.
- A line without a partner bank record is treated as one of type other with an empty number, like Python's `False` fields.
- `data/res_partner_bank_type.py` and `__openerp__.py` only create records or declare the manifest, so they are not modelled.
