/** Bankgiro and Plusgiro account numbers (models/res_partner_bank.py): the
    Luhn mod-10 checksum, the two shape validators, and the account type a
    partner bank record derives from its number. */
module AccountNumbers {
  import opened Strings

  type Digit = d: nat | d < 10

  /** What a bank record's acc_type can be: 'bg', 'pg', or whatever the
      parent computation yields for every other number. */
  datatype AccType = Bankgiro | Plusgiro | Other

  /** A partner bank record as the payment-file encoder reads it. */
  datatype BankAccount = BankAccount(accNumber: string, accType: AccType)

  /** Only digits and hyphens: what luhn_check can convert with int(). */
  predicate DigitsOrHyphens(s: string) {
    forall c :: c in s ==> IsDigit(c) || c == '-'
  }

  /** [int(x) for x in s] */
  function Digits(s: string): (ds: seq<Digit>)
    requires OnlyDigits(s)
    ensures |ds| == |s|
    ensures forall i :: 0 <= i < |s| ==> ds[i] == DigitValue(s[i])
  {
    seq(|s|, i requires 0 <= i < |s| => assert s[i] in s; DigitValue(s[i]))
  }

  /** xs[::2]: the elements at indices 0, 2, 4, ... */
  function EverySecond<T>(xs: seq<T>): (r: seq<T>)
    ensures |r| == (|xs| + 1) / 2
    ensures forall i :: 0 <= i < |r| ==> r[i] == xs[2 * i]
  {
    if |xs| <= 1 then xs else [xs[0]] + EverySecond(xs[2..])
  }

  /** xs[1::2]: the elements at indices 1, 3, 5, ... */
  function FromSecond<T>(xs: seq<T>): seq<T> {
    if xs == [] then [] else EverySecond(xs[1..])
  }

  /** map(lambda x: x*2, xs) */
  function Doubled(xs: seq<Digit>): (r: seq<nat>)
    ensures |r| == |xs|
  {
    seq(|xs|, i requires 0 <= i < |xs| => 2 * (xs[i] as nat))
  }

  function Sum(xs: seq<nat>): nat {
    if xs == [] then 0 else xs[0] + Sum(xs[1..])
  }

  /** ''.join(map(str, xs)) */
  function JoinDecimal(xs: seq<nat>): (s: string)
    ensures OnlyDigits(s)
  {
    if xs == [] then "" else Str(xs[0]) + JoinDecimal(xs[1..])
  }

  /** sum(int(x) for x in s) */
  function CharDigitSum(s: string): nat
    requires OnlyDigits(s)
  {
    if s == [] then 0 else assert s[0] in s; DigitValue(s[0]) + CharDigitSum(s[1..])
  }

  /** luhn_check: the number is reversed and its hyphens removed; the digits
      at even positions are summed as they are, those at odd positions are
      doubled, written out in decimal and summed digit by digit. */
  predicate LuhnCheck(number: string)
    requires DigitsOrHyphens(number)
  {
    LuhnSum(Digits(RemoveAll(Reverse(number), '-'))) % 10 == 0
  }

  /** The sum luhn_check takes over the reversed digits: those at even
      positions as they are, plus the decimal digits of the doubled ones at
      odd positions. */
  function LuhnSum(digits: seq<Digit>): nat {
    var oddDigitSum := Sum(EverySecond(digits));
    var evenDigits := Doubled(FromSecond(digits));
    var evenDigitSum := CharDigitSum(JoinDecimal(evenDigits));
    oddDigitSum + evenDigitSum
  }

  /** The digit sum of 2 * d for one decimal digit d. */
  function DoubledDigitSum(d: Digit): nat {
    if d >= 5 then 2 * d - 9 else 2 * d
  }

  /** Reference Luhn total of digits in reading order (ISO/IEC 7812-1,
      Annex B): the rightmost digit and every second one to its left count
      as they are; the others are doubled and replaced by their digit sum. */
  function LuhnTotal(ds: seq<Digit>): nat
    decreases |ds|
  {
    if |ds| == 0 then 0
    else if |ds| == 1 then ds[0]
    else LuhnTotal(ds[..|ds| - 2]) + DoubledDigitSum(ds[|ds| - 2]) + ds[|ds| - 1]
  }

  /** The number passes the Luhn test of the reference definition. */
  predicate LuhnValid(number: string)
    requires DigitsOrHyphens(number)
  {
    LuhnTotal(Digits(RemoveAll(number, '-'))) % 10 == 0
  }

  /** The same total, computed over the digits read from the right. */
  function ReversedTotal(xs: seq<Digit>): nat
    decreases |xs|
  {
    if |xs| == 0 then 0
    else if |xs| == 1 then xs[0]
    else xs[0] + DoubledDigitSum(xs[1]) + ReversedTotal(xs[2..])
  }

  function DoubledDigitSums(xs: seq<Digit>): nat {
    if xs == [] then 0 else DoubledDigitSum(xs[0]) + DoubledDigitSums(xs[1..])
  }

  lemma {:induction false} CharDigitSumConcat(a: string, b: string)
    requires OnlyDigits(a) && OnlyDigits(b)
    ensures OnlyDigits(a + b)
    ensures CharDigitSum(a + b) == CharDigitSum(a) + CharDigitSum(b)
    decreases |a|
  {
    if a != [] {
      assert (a + b)[1..] == a[1..] + b;
      assert forall c :: c in a[1..] ==> c in a;
      CharDigitSumConcat(a[1..], b);
    } else {
      assert a + b == b;
    }
  }

  /** Writing 2 * d in decimal and summing its digits gives DoubledDigitSum(d). */
  lemma StrDoubledDigitSum(d: Digit)
    ensures CharDigitSum(Str(2 * (d as nat))) == DoubledDigitSum(d)
  {
    var n: nat := 2 * (d as nat);
    if d >= 5 {
      assert n / 10 == 1 && n % 10 == n - 10;
      assert Str(n) == [DigitChar(1), DigitChar(n - 10)];
      assert Str(n)[1..] == [DigitChar(n - 10)];
      assert Str(n)[1..][1..] == [];
      assert CharDigitSum(Str(n)[1..]) == n - 10;
      assert CharDigitSum(Str(n)) == 1 + (n - 10);
    } else {
      assert Str(n) == [DigitChar(n)];
      assert Str(n)[1..] == [];
    }
  }

  /** The digit-string detour of luhn_check sums the digit sums of the doubled digits. */
  lemma {:induction false} JoinedDoubledSum(xs: seq<Digit>)
    ensures CharDigitSum(JoinDecimal(Doubled(xs))) == DoubledDigitSums(xs)
    decreases |xs|
  {
    if xs != [] {
      assert Doubled(xs)[1..] == Doubled(xs[1..]);
      JoinedDoubledSum(xs[1..]);
      StrDoubledDigitSum(xs[0]);
      CharDigitSumConcat(Str(2 * (xs[0] as nat)), JoinDecimal(Doubled(xs[1..])));
    }
  }

  /** Splitting into even and odd positions and summing gives the reversed total. */
  lemma {:induction false} SplitSums(xs: seq<Digit>)
    ensures Sum(EverySecond(xs)) + DoubledDigitSums(FromSecond(xs)) == ReversedTotal(xs)
    decreases |xs|
  {
    if |xs| == 1 {
      assert FromSecond(xs) == [];
    } else if |xs| >= 2 {
      SplitSums(xs[2..]);
      if |xs| == 2 {
        assert FromSecond(xs) == [xs[1]] && EverySecond(xs) == [xs[0]];
        assert FromSecond(xs)[1..] == [] && EverySecond(xs)[1..] == [];
      } else {
        assert xs[1..][2..] == xs[2..][1..];
        assert FromSecond(xs) == [xs[1]] + FromSecond(xs[2..]);
      }
    }
  }

  /** Reading the digits from the right or the left gives the same total. */
  lemma {:induction false} ReversedTotalMirror(xs: seq<Digit>, ys: seq<Digit>)
    requires |xs| == |ys|
    requires forall i :: 0 <= i < |xs| ==> xs[i] == ys[|ys| - 1 - i]
    ensures ReversedTotal(xs) == LuhnTotal(ys)
    decreases |xs|
  {
    if |xs| >= 2 {
      ReversedTotalMirror(xs[2..], ys[..|ys| - 2]);
    }
  }

  /** luhn_check agrees with the reference Luhn definition. */
  lemma LuhnCheckMeaning(number: string)
    requires DigitsOrHyphens(number)
    ensures LuhnCheck(number) <==> LuhnValid(number)
  {
    var t := RemoveAll(number, '-');
    RemoveAllReverse(number, '-');
    ReversedDigitsTotal(t);
    LuhnSumReversed(Digits(Reverse(t)));
  }

  /** luhn_check's sum over the reversed digits is their reversed total. */
  lemma LuhnSumReversed(digits: seq<Digit>)
    ensures LuhnSum(digits) == ReversedTotal(digits)
  {
    SplitSums(digits);
    JoinedDoubledSum(FromSecond(digits));
  }

  /** The reversed total of the reversed digits is the reference total. */
  lemma ReversedDigitsTotal(t: string)
    requires OnlyDigits(t)
    ensures OnlyDigits(Reverse(t))
    ensures ReversedTotal(Digits(Reverse(t))) == LuhnTotal(Digits(t))
  {
    ReversedTotalMirror(Digits(Reverse(t)), Digits(t));
  }

  /** Hyphens are irrelevant to the checksum. */
  lemma LuhnIgnoresHyphens(number: string)
    requires DigitsOrHyphens(number)
    ensures DigitsOrHyphens(RemoveAll(number, '-'))
    ensures LuhnCheck(number) == LuhnCheck(RemoveAll(number, '-'))
  {
    var t := RemoveAll(number, '-');
    LuhnCheckMeaning(number);
    LuhnCheckMeaning(t);
    RemoveAllAbsent(t, '-');
  }

  /** The only hyphen of s sits at index k; every other character is a digit. */
  predicate HyphenOnlyAt(s: string, k: int) {
    0 <= k < |s| && s[k] == '-' && forall i :: 0 <= i < |s| && i != k ==> IsDigit(s[i])
  }

  /** (X)XXX-XXXX: 8 or 9 characters with the single hyphen fifth from the end. */
  predicate BankgiroShape(s: string) {
    (|s| == 8 || |s| == 9) && HyphenOnlyAt(s, |s| - 5)
  }

  /** (XXXXXX)X-X: 3 to 9 characters with the single hyphen second from the end. */
  predicate PlusgiroShape(s: string) {
    3 <= |s| <= 9 && HyphenOnlyAt(s, |s| - 2)
  }

  lemma HyphenOnlyAtDigits(s: string, k: int)
    requires HyphenOnlyAt(s, k)
    ensures DigitsOrHyphens(s)
  {
    forall c | c in s ensures IsDigit(c) || c == '-' {
      var i :| 0 <= i < |s| && s[i] == c;
    }
  }

  /** Deleting the first hyphen leaves only digits, and index k holds a
      hyphen, exactly when k holds the one and only hyphen. */
  lemma RemoveFirstHyphen(s: string, k: int)
    requires 0 <= k < |s| && |s| >= 2
    ensures (IsDigitString(RemoveFirst(s, '-')) && s[k] == '-') <==> HyphenOnlyAt(s, k)
  {
    if s[k] == '-' {
      var f := FirstIndex(s, '-');
      var r := RemoveFirst(s, '-');
      assert r == s[..f] + s[f + 1..];
      if IsDigitString(r) {
        if f < k {
          DigitAt(r, k - 1);
          assert false;
        }
        forall i | 0 <= i < |s| && i != k ensures IsDigit(s[i]) {
          if i < k { assert r[i] == s[i] && r[i] in r; }
          else { assert r[i - 1] == s[i] && r[i - 1] in r; }
        }
      }
      if HyphenOnlyAt(s, k) {
        assert f == k;
        forall c | c in r ensures IsDigit(c) {
          var j :| 0 <= j < |r| && r[j] == c;
          if j < k { assert r[j] == s[j]; } else { assert r[j] == s[j + 1]; }
        }
      }
    }
  }

  /** bg_validator */
  predicate BgValidator(accNumber: string) {
    && IsDigitString(RemoveFirst(accNumber, '-'))
    && 7 < |accNumber| < 10
    && accNumber[|accNumber| - 5] == '-'
    && LuhnCheck(accNumber)
  }

  /** pg_validator */
  predicate PgValidator(accNumber: string) {
    && IsDigitString(RemoveFirst(accNumber, '-'))
    && 2 < |accNumber| < 10
    && accNumber[|accNumber| - 2] == '-'
    && LuhnCheck(accNumber)
  }

  /** bg_validator accepts exactly the Luhn-valid numbers of Bankgiro shape. */
  lemma BgValidatorMeaning(s: string)
    ensures BankgiroShape(s) ==> DigitsOrHyphens(s)
    ensures BgValidator(s) <==> BankgiroShape(s) && LuhnValid(s)
  {
    if 7 < |s| < 10 {
      RemoveFirstHyphen(s, |s| - 5);
      if BankgiroShape(s) {
        HyphenOnlyAtDigits(s, |s| - 5);
        LuhnCheckMeaning(s);
      }
    }
  }

  /** pg_validator accepts exactly the Luhn-valid numbers of Plusgiro shape. */
  lemma PgValidatorMeaning(s: string)
    ensures PlusgiroShape(s) ==> DigitsOrHyphens(s)
    ensures PgValidator(s) <==> PlusgiroShape(s) && LuhnValid(s)
  {
    if 2 < |s| < 10 {
      RemoveFirstHyphen(s, |s| - 2);
      if PlusgiroShape(s) {
        HyphenOnlyAtDigits(s, |s| - 2);
        LuhnCheckMeaning(s);
      }
    }
  }

  /** A number without a hyphen, or with two or more, is neither Bankgiro nor Plusgiro. */
  lemma HyphenCountRejected(s: string, i: int, j: int)
    requires '-' !in s || (0 <= i < j < |s| && s[i] == '-' && s[j] == '-')
    ensures !BgValidator(s) && !PgValidator(s)
  {
    BgValidatorMeaning(s);
    PgValidatorMeaning(s);
  }

  /** No number passes both validators. */
  lemma ValidatorsExclusive(s: string)
    ensures !(BgValidator(s) && PgValidator(s))
  {
    BgValidatorMeaning(s);
    PgValidatorMeaning(s);
  }

  /** _compute_acc_type on a number; an empty number and every number that
      neither validator accepts get the parent's type, here Other. */
  function AccTypeOf(accNumber: string): AccType {
    if accNumber == "" then Other
    else if BgValidator(accNumber) then Bankgiro
    else if PgValidator(accNumber) then Plusgiro
    else Other
  }

  /** The classification is exactly the two validators, and unambiguous. */
  lemma AccTypeOfMeaning(s: string)
    ensures AccTypeOf(s) == Bankgiro <==> BgValidator(s)
    ensures AccTypeOf(s) == Plusgiro <==> PgValidator(s)
    ensures AccTypeOf(s) == Other <==> !BgValidator(s) && !PgValidator(s)
  {
    ValidatorsExclusive(s);
  }

  /** A record whose acc_type has been computed from its acc_number. */
  predicate Classified(b: BankAccount) {
    b.accType == AccTypeOf(b.accNumber)
  }

  /** Deleting the hyphens of a number whose only hyphen is at k leaves the
      digits on either side of it. */
  lemma HyphenOnlyAtCondensed(s: string, k: int)
    requires HyphenOnlyAt(s, k)
    ensures RemoveAll(s, '-') == s[..k] + s[k + 1..]
    ensures OnlyDigits(RemoveAll(s, '-'))
  {
    var a, b := s[..k], s[k + 1..];
    assert s == a + ['-'] + b;
    SliceDigits(s, k, 0, k);
    SliceDigits(s, k, k + 1, |s|);
    RemoveAllOne(a, b, '-');
  }

  /** A slice of s that leaves out its only hyphen holds digits alone. */
  lemma SliceDigits(s: string, k: int, lo: int, hi: int)
    requires HyphenOnlyAt(s, k) && 0 <= lo <= hi <= |s| && (k < lo || hi <= k)
    ensures OnlyDigits(s[lo..hi]) && '-' !in s[lo..hi]
  {
    var t := s[lo..hi];
    assert forall i :: 0 <= i < |t| ==> t[i] == s[lo + i];
    DigitsFromIndices(t);
  }

  /** A classified Bankgiro number condenses to 7 or 8 digits, a Plusgiro
      number to 2 to 8 digits. */
  lemma ClassifiedDigits(b: BankAccount)
    requires Classified(b) && b.accType != Other
    ensures IsDigitString(RemoveAll(b.accNumber, '-'))
    ensures b.accType == Bankgiro ==> 7 <= |RemoveAll(b.accNumber, '-')| <= 8
    ensures 2 <= |RemoveAll(b.accNumber, '-')| <= 8
  {
    var s := b.accNumber;
    AccTypeOfMeaning(s);
    BgValidatorMeaning(s);
    PgValidatorMeaning(s);
    HyphenOnlyAtCondensed(s, if b.accType == Bankgiro then |s| - 5 else |s| - 2);
  }

  /** A bank record of the partner model; acc_type follows acc_number. */
  class ResPartnerBank {
    var accNumber: string
    var accType: AccType

    constructor (accNumber: string)
      ensures this.accNumber == accNumber && Classified(Record())
    {
      this.accNumber := accNumber;
      accType := AccTypeOf(accNumber);
    }

    /** The record as a value. */
    function Record(): (b: BankAccount)
      reads this
      ensures b.accNumber == accNumber && b.accType == accType
    {
      BankAccount(accNumber, accType)
    }

    /** _compute_acc_type */
    method ComputeAccType()
      modifies this
      ensures accNumber == old(accNumber)
      ensures accType == AccTypeOf(accNumber)
      ensures accType == Bankgiro <==> BgValidator(accNumber)
      ensures accType == Plusgiro <==> PgValidator(accNumber)
    {
      AccTypeOfMeaning(accNumber);
      if accNumber == "" {
        accType := Other;
      } else if BgValidator(accNumber) {
        accType := Bankgiro;
      } else if PgValidator(accNumber) {
        accType := Plusgiro;
      } else {
        accType := Other;
      }
    }

    /** Writing acc_number recomputes acc_type (it depends on acc_number). */
    method SetAccNumber(n: string)
      modifies this
      ensures accNumber == n && Classified(Record())
    {
      accNumber := n;
      ComputeAccType();
    }
  }

  lemma BankgiroExample()
    ensures BgValidator("5050-1055")
  {
    var s := "5050-1055";
    assert BankgiroShape(s);
    HyphenOnlyAtCondensed(s, 4);
    assert RemoveAll(s, '-') == "50501055";
    BankgiroExampleTotal();
    BgValidatorMeaning(s);
  }

  lemma BankgiroExampleTotal()
    ensures LuhnTotal(Digits("50501055")) == 10
  {
    var ds := Digits("50501055");
    assert ds == [5, 0, 5, 0, 1, 0, 5, 5];
    assert ds[..2][..0] == [] && ds[..4][..2] == ds[..2] && ds[..6][..4] == ds[..4];
    assert LuhnTotal(ds[..2]) == 1 + 0;
    assert LuhnTotal(ds[..4]) == LuhnTotal(ds[..2]) + 1 + 0;
    assert LuhnTotal(ds[..6]) == LuhnTotal(ds[..4]) + 2 + 0;
    assert LuhnTotal(ds) == LuhnTotal(ds[..6]) + 1 + 5;
  }

  /** 123-4561 has the Bankgiro shape but fails the Luhn test (its total is
      25), so neither validator accepts it. */
  lemma SampleNumberRejected()
    ensures !BgValidator("123-4561") && !PgValidator("123-4561")
  {
    var s := "123-4561";
    assert !PgValidator(s) by { assert s[|s| - 2] == '6'; }
    SampleLuhnFails();
    BgValidatorMeaning(s);
  }

  /** 9912345 has no hyphen, so neither validator accepts it. */
  lemma UnhyphenatedSampleRejected()
    ensures !BgValidator("9912345") && !PgValidator("9912345")
  {
    HyphenCountRejected("9912345", 0, 0);
  }

  lemma SampleLuhnFails()
    ensures DigitsOrHyphens("123-4561") && !LuhnValid("123-4561")
  {
    var s := "123-4561";
    assert HyphenOnlyAt(s, 3);
    HyphenOnlyAtDigits(s, 3);
    HyphenOnlyAtCondensed(s, 3);
    assert RemoveAll(s, '-') == "1234561";
    SampleNumberTotal();
  }

  lemma SampleNumberTotal()
    ensures LuhnTotal(Digits("1234561")) == 25
  {
    var ds := Digits("1234561");
    assert ds == [1, 2, 3, 4, 5, 6, 1];
    assert ds[..3][..1] == ds[..1] && ds[..5][..3] == ds[..3];
    assert LuhnTotal(ds[..3]) == 1 + 4 + 3;
    assert LuhnTotal(ds[..5]) == LuhnTotal(ds[..3]) + 8 + 5;
    assert LuhnTotal(ds) == LuhnTotal(ds[..5]) + 3 + 1;
  }

  lemma PlusgiroExample()
    ensures PgValidator("1-8")
  {
    var s := "1-8";
    assert PlusgiroShape(s);
    HyphenOnlyAtCondensed(s, 1);
    assert RemoveAll(s, '-') == "18";
    var ds := Digits("18");
    assert ds == [1, 8];
    assert ds[..0] == [];
    assert LuhnTotal(ds) == 0 + 2 + 8;
    PgValidatorMeaning(s);
  }
}
