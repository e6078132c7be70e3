/** Daily order numbers: `YYYYMMDD` followed by a sequence of at least four
    digits, one sequence per order source type. The three copies of
    `_generate_order_number` in the services differ only in the source type. */
module Numbering {
  import opened Wrappers
  import opened Decimal
  import opened Text
  import opened Schema
  import opened Sorting

  /** A calendar date, as `datetime` holds it. */
  datatype Date = Date(year: nat, month: nat, day: nat)

  /** Dates with a four-digit year (all `datetime.now()` values in practice). */
  predicate ValidDate(d: Date) {
    1000 <= d.year <= 9999 && 1 <= d.month <= 12 && 1 <= d.day <= 31
  }

  /** `strftime("%Y%m%d")`. */
  function DatePrefix(d: Date): (p: string)
    ensures AllDigits(p) && |p| >= 1
  {
    Padded(d.year, 4) + Padded(d.month, 2) + Padded(d.day, 2)
  }

  /** `strftime("%Y/%m/%d")`, the format of every order date the services write. */
  function SlashDate(d: Date): string {
    Padded(d.year, 4) + "/" + Padded(d.month, 2) + "/" + Padded(d.day, 2)
  }

  lemma {:induction false} DatePrefixShape(d: Date)
    requires ValidDate(d)
    ensures |DatePrefix(d)| == 8 && DatePrefix(d)[0] != '0'
  {
    FromNatShort(d.year, 4);
    FromNatShort(d.month, 2);
    FromNatShort(d.day, 2);
    FromNatLength(d.year);
    if |FromNat(d.year)| < 4 {
      Pow10Monotone(|FromNat(d.year)|, 3);
    }
  }

  /** SQL `OrderNumber LIKE 'prefix%'` on a bigint column: its decimal text starts with the prefix. */
  predicate MatchesPrefix(number: int, prefix: string) {
    StartsWith(FromInt(number), prefix)
  }

  /** The order numbers of one source type that `LIKE 'prefix%'` selects. */
  function MatchingNumbers(orders: map<int, Order>, source: int, prefix: string): set<int> {
    set id | id in orders && orders[id].orderSource == source && MatchesPrefix(orders[id].orderNumber, prefix)
      :: orders[id].orderNumber
  }

  predicate Greater(a: int, b: int) {
    a > b
  }

  /** `SELECT MAX(OrderNumber) ... WHERE OrderSource = source AND OrderNumber LIKE 'prefix%'`. */
  function MaxNumber(orders: map<int, Order>, source: int, prefix: string): (m: Option<int>)
    ensures m.None? <==> MatchingNumbers(orders, source, prefix) == {}
    ensures m.Some? ==> m.value in MatchingNumbers(orders, source, prefix)
    ensures m.Some? ==> forall n :: n in MatchingNumbers(orders, source, prefix) ==> n <= m.value
    ensures m.Some? ==> MatchesPrefix(m.value, prefix)
  {
    var s := MatchingNumbers(orders, source, prefix);
    if s == {} then None else Some(Least(s, Greater))
  }

  /** `int("")` raises when the maximum has no digits after the prefix. */
  datatype NumberingError = EmptySequence(maxNumber: int)

  /** The digits after the prefix in the decimal text of a number. */
  function SequenceText(number: int, prefix: string): string
    requires MatchesPrefix(number, prefix)
  {
    FromInt(number)[|prefix|..]
  }

  /** The text after a matched prefix of digits is digits too. */
  lemma SequenceDigits(number: int, prefix: string)
    requires AllDigits(prefix) && |prefix| >= 1 && MatchesPrefix(number, prefix)
    ensures AllDigits(SequenceText(number, prefix))
  {
    var text := FromInt(number);
    assert IsDigit(text[0]);
    assert number >= 0;
    var rest := SequenceText(number, prefix);
    forall i | 0 <= i < |rest| ensures IsDigit(rest[i]) {
      assert rest[i] == text[|prefix| + i];
    }
  }

  /** The sequence that follows the day's maximum: the digits after the prefix
      plus one, or 1 when the day has no number yet (or only the number 0). */
  function NewSequence(prefix: string, maxNumber: Option<int>): (r: Result<nat, NumberingError>)
    requires |prefix| >= 1 && AllDigits(prefix)
    requires maxNumber.Some? ==> MatchesPrefix(maxNumber.value, prefix)
    ensures r.Ok? ==> r.value >= 1
    ensures maxNumber.None? ==> r == Ok(1)
  {
    if maxNumber.Some? && maxNumber.value != 0 then
      var rest := SequenceText(maxNumber.value, prefix);
      if rest == [] then Err(EmptySequence(maxNumber.value))
      else
        SequenceDigits(maxNumber.value, prefix);
        Ok(Parse(rest) + 1)
    else Ok(1)
  }

  /** `int(f"{prefix}{seq:04d}")`: the sequence padded to four digits, never cut. */
  function NumberAfter(prefix: string, maxNumber: Option<int>): (r: Result<int, NumberingError>)
    requires |prefix| >= 1 && AllDigits(prefix)
    requires maxNumber.Some? ==> MatchesPrefix(maxNumber.value, prefix)
  {
    match NewSequence(prefix, maxNumber)
    case Ok(k) => Ok(Parse(prefix + Padded(k, 4)))
    case Err(e) => Err(e)
  }

  /** `_generate_order_number(source, day)`. */
  function NextOrderNumber(orders: map<int, Order>, source: int, day: Date): (r: Result<int, NumberingError>)
  {
    NumberAfter(DatePrefix(day), MaxNumber(orders, source, DatePrefix(day)))
  }

  /** A sequence below 10000 fills exactly the four places after the prefix. */
  lemma PrefixThenSequence(prefix: string, k: nat)
    requires AllDigits(prefix) && k < 10000
    ensures Parse(prefix + Padded(k, 4)) == Parse(prefix) * 10000 + k
  {
    assert Pow10(4) == 10000;
    FromNatShort(k, 4);
    ParseAppend(prefix, Padded(k, 4));
    PaddedParse(k, 4);
  }

  /** The first order of a type on a day gets sequence 0001. */
  lemma FirstNumberOfDay(orders: map<int, Order>, source: int, day: Date)
    requires MatchingNumbers(orders, source, DatePrefix(day)) == {}
    ensures NextOrderNumber(orders, source, day) == Ok(Parse(DatePrefix(day)) * 10000 + 1)
  {
    var prefix := DatePrefix(day);
    var m := MaxNumber(orders, source, prefix);
    assert m.None?;
    var k: nat := 1;
    assert NewSequence(prefix, m) == Ok(k);
    PrefixThenSequence(prefix, k);
  }

  /** A number as the generator writes it: prefix, then the sequence padded to four digits. */
  predicate WellFormed(number: int, prefix: string) {
    MatchesPrefix(number, prefix)
    && AllDigits(SequenceText(number, prefix))
    && SequenceText(number, prefix) == Padded(Parse(SequenceText(number, prefix)), 4)
  }

  /** Every number of that type and day was written by the generator. */
  ghost predicate AllWellFormed(orders: map<int, Order>, source: int, prefix: string) {
    forall n :: n in MatchingNumbers(orders, source, prefix) ==> WellFormed(n, prefix)
  }

  /** The value of prefix + padded sequence. */
  lemma {:induction false} ComposedValue(prefix: string, k: nat)
    requires |prefix| >= 1 && AllDigits(prefix) && prefix[0] != '0'
    ensures FromNat(Parse(prefix + Padded(k, 4))) == prefix + Padded(k, 4)
    ensures Parse(prefix + Padded(k, 4)) == Parse(prefix) * Pow10(|Padded(k, 4)|) + k
  {
    ParseAppend(prefix, Padded(k, 4));
    PaddedParse(k, 4);
    FromNatParse(prefix + Padded(k, 4));
  }

  /** A generated number carries the day's prefix and is well formed. */
  lemma {:induction false} GeneratedIsWellFormed(orders: map<int, Order>, source: int, day: Date)
    requires ValidDate(day)
    requires NextOrderNumber(orders, source, day).Ok?
    ensures WellFormed(NextOrderNumber(orders, source, day).value, DatePrefix(day))
  {
    var prefix := DatePrefix(day);
    DatePrefixShape(day);
    var m := MaxNumber(orders, source, prefix);
    var k := NewSequence(prefix, m).value;
    assert NextOrderNumber(orders, source, day).value == Parse(prefix + Padded(k, 4));
    ComposedIsWellFormed(prefix, k);
  }

  lemma ComposedIsWellFormed(prefix: string, k: nat)
    requires |prefix| >= 1 && AllDigits(prefix) && prefix[0] != '0'
    ensures WellFormed(Parse(prefix + Padded(k, 4)), prefix)
  {
    ComposedValue(prefix, k);
    var r := Parse(prefix + Padded(k, 4));
    assert FromInt(r) == prefix + Padded(k, 4);
    assert SequenceText(r, prefix) == Padded(k, 4);
    PaddedParse(k, 4);
  }

  /** When every number of the day was generated, the next one is larger than
      all of them, and it is the maximum plus one while the sequence stays
      within four digits. */
  lemma {:induction false} NextNumberExceedsExisting(orders: map<int, Order>, source: int, day: Date)
    requires ValidDate(day)
    requires AllWellFormed(orders, source, DatePrefix(day))
    ensures NextOrderNumber(orders, source, day).Ok?
    ensures forall n :: n in MatchingNumbers(orders, source, DatePrefix(day)) ==> n < NextOrderNumber(orders, source, day).value
    ensures var m := MaxNumber(orders, source, DatePrefix(day));
      m.Some? && Parse(SequenceText(m.value, DatePrefix(day))) < 9999 ==> NextOrderNumber(orders, source, day).value == m.value + 1
  {
    var prefix := DatePrefix(day);
    DatePrefixShape(day);
    var m := MaxNumber(orders, source, prefix);
    if m.Some? {
      assert WellFormed(m.value, prefix);
      SuccessorOfWellFormed(prefix, m.value);
      var k := Parse(SequenceText(m.value, prefix));
      var next := Parse(prefix + Padded(k + 1, 4));
      assert NextOrderNumber(orders, source, day) == Ok(next);
      if k < 9999 {
        SuccessorIsNext(prefix, m.value);
        assert next == m.value + 1;
      }
      assert next > m.value;
    } else {
      FirstNumberOfDay(orders, source, day);
    }
  }

  /** The number generated after a well-formed maximum exceeds it. */
  lemma SuccessorOfWellFormed(prefix: string, mv: int)
    requires |prefix| >= 1 && AllDigits(prefix) && prefix[0] != '0'
    requires WellFormed(mv, prefix)
    ensures NewSequence(prefix, Some(mv)) == Ok(Parse(SequenceText(mv, prefix)) + 1)
    ensures Parse(prefix + Padded(Parse(SequenceText(mv, prefix)) + 1, 4)) > mv
  {
    var suf := SequenceText(mv, prefix);
    WellFormedValue(prefix, mv);
    NewSequenceAfter(prefix, mv);
    PaddedSuccessorExceeds(prefix, Parse(suf), mv);
  }

  lemma NewSequenceAfter(prefix: string, mv: int)
    requires |prefix| >= 1 && AllDigits(prefix) && MatchesPrefix(mv, prefix)
    requires mv != 0 && SequenceText(mv, prefix) != []
    ensures AllDigits(SequenceText(mv, prefix))
    ensures NewSequence(prefix, Some(mv)) == Ok(Parse(SequenceText(mv, prefix)) + 1)
  {
    SequenceDigits(mv, prefix);
  }

  lemma PaddedSuccessorExceeds(prefix: string, k: nat, mv: int)
    requires |prefix| >= 1 && AllDigits(prefix) && prefix[0] != '0'
    requires mv == Parse(prefix) * Pow10(|Padded(k, 4)|) + k
    ensures Parse(prefix + Padded(k + 1, 4)) > mv
  {
    ComposedValue(prefix, k + 1);
    PaddedLengthMonotone(k, k + 1, 4);
    var a: int, x: int, y: int := Parse(prefix), Pow10(|Padded(k, 4)|), Pow10(|Padded(k + 1, 4)|);
    Pow10Monotone(|Padded(k, 4)|, |Padded(k + 1, 4)|);
    MulMonotone(a, x, y);
  }

  /** While the sequence stays within four digits, the next number is the maximum plus one. */
  lemma SuccessorIsNext(prefix: string, mv: int)
    requires |prefix| >= 1 && AllDigits(prefix) && prefix[0] != '0'
    requires WellFormed(mv, prefix) && Parse(SequenceText(mv, prefix)) < 9999
    ensures Parse(prefix + Padded(Parse(SequenceText(mv, prefix)) + 1, 4)) == mv + 1
  {
    var suf := SequenceText(mv, prefix);
    var k := Parse(suf);
    WellFormedValue(prefix, mv);
    PaddedSuccessorIsNext(prefix, k, mv);
  }

  lemma PaddedSuccessorIsNext(prefix: string, k: nat, mv: int)
    requires AllDigits(prefix) && k < 9999
    requires mv == Parse(prefix) * Pow10(|Padded(k, 4)|) + k
    ensures Parse(prefix + Padded(k + 1, 4)) == mv + 1
  {
    assert Pow10(4) == 10000;
    FromNatShort(k, 4);
    assert |Padded(k, 4)| == 4;
    PrefixThenSequence(prefix, k + 1);
  }

  /** A well-formed number is the prefix's value shifted past its sequence. */
  lemma WellFormedValue(prefix: string, mv: int)
    requires |prefix| >= 1 && AllDigits(prefix) && prefix[0] != '0'
    requires WellFormed(mv, prefix)
    ensures mv > 0 && SequenceText(mv, prefix) != []
    ensures mv == Parse(prefix) * Pow10(|SequenceText(mv, prefix)|) + Parse(SequenceText(mv, prefix))
  {
    var suf := SequenceText(mv, prefix);
    var k := Parse(suf);
    assert mv >= 0 by { assert IsDigit(FromInt(mv)[0]); }
    assert FromNat(mv) == prefix + suf;
    ComposedValue(prefix, k);
    ParseFromNat(mv);
  }

  lemma MulMonotone(a: int, x: int, y: int)
    requires a >= 0 && x <= y
    ensures a * x <= a * y
  {
  }

  /** A well-formed number joins the day's numbers without breaking the invariant. */
  lemma {:induction false} AddWellFormed(orders: map<int, Order>, source: int, prefix: string, id: int, o: Order)
    requires AllWellFormed(orders, source, prefix)
    requires o.orderSource == source && MatchesPrefix(o.orderNumber, prefix) ==> WellFormed(o.orderNumber, prefix)
    ensures AllWellFormed(orders[id := o], source, prefix)
  {
    forall n | n in MatchingNumbers(orders[id := o], source, prefix)
      ensures WellFormed(n, prefix)
    {
      var j :| j in orders[id := o] && orders[id := o][j].orderSource == source
        && MatchesPrefix(orders[id := o][j].orderNumber, prefix) && orders[id := o][j].orderNumber == n;
      if j != id {
        assert n in MatchingNumbers(orders, source, prefix);
      }
    }
  }
}
