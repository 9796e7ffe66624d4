/**
  Scores as decimals.  A score is computed to two places, clamped between two bounds that have none, and
  stored in a column that always has two; the three may be equal as numbers and differ as text.
*/
module Decimals {
  import opened Prelude
  import opened Text

  datatype Decimal = Whole(units: nat) | Hundredths(count: int)

  function InCents(d: Decimal): int {
    match d case Whole(units) => 100 * units case Hundredths(count) => count
  }

  function Amount(d: Decimal): real {
    InCents(d) as real / 100.0
  }

  function TwoDigits(n: nat): string
    requires n < 100
  {
    [DigitChar(n / 10), DigitChar(n % 10)]
  }

  function PrintCents(n: nat): string {
    PrintNumber(n / 100) + "." + TwoDigits(n % 100)
  }

  /** `str(value)`. */
  function Shown(d: Decimal): string {
    match d
    case Whole(units) => PrintNumber(units)
    case Hundredths(count) => if count < 0 then "-" + PrintCents(-count) else PrintCents(count)
  }

  /** `max(a, b)`: of two equal ones, the first. */
  function Greater(a: Decimal, b: Decimal): Decimal {
    if InCents(b) > InCents(a) then b else a
  }

  function Lesser(a: Decimal, b: Decimal): Decimal {
    if InCents(b) < InCents(a) then b else a
  }

  const LOWEST: Decimal := Whole(0)
  const HIGHEST: Decimal := Whole(100)

  /** The score that so many hundredths make. */
  function Clamped(count: int): Decimal {
    Lesser(HIGHEST, Greater(LOWEST, Hundredths(count)))
  }

  /** What the column gives back. */
  function Stored(d: Decimal): Decimal {
    Hundredths(InCents(d))
  }

  predicate HasPlaces(text: string) {
    |text| > 3 && text[|text| - 3] == '.' && IsNumber(text[..|text| - 3]) && IsNumber(text[|text| - 2..])
  }

  /** The number a text stands for, whole or to two places. */
  function ReadCents(text: string): Option<nat> {
    if IsNumber(text) then Some(100 * ReadNumber(text))
    else if HasPlaces(text) then Some(100 * ReadNumber(text[..|text| - 3]) + ReadNumber(text[|text| - 2..]))
    else None
  }

  lemma ReadTwoDigits(n: nat)
    requires n < 100
    ensures IsNumber(TwoDigits(n)) && ReadNumber(TwoDigits(n)) == n
  {
    var tens := [DigitChar(n / 10)];
    assert TwoDigits(n)[..1] == tens && tens[..0] == [];
    assert ReadNumber(tens) == n / 10;
  }

  lemma PlacesSplit(head: string, tail: string)
    requires |tail| == 2
    ensures var text := head + "." + tail;
            && |text| == |head| + 3 && text[|head|] == '.' && text[..|head|] == head && text[|head| + 1..] == tail
  {
  }

  lemma PlacesReadBack(head: string, tail: string)
    requires IsNumber(head) && IsNumber(tail) && |tail| == 2
    ensures ReadCents(head + "." + tail) == Some(100 * ReadNumber(head) + ReadNumber(tail))
  {
    var text := head + "." + tail;
    PlacesSplit(head, tail);
    assert !IsDigit(text[|head|]) && !IsNumber(text);
  }

  lemma CentsReadBack(n: nat)
    ensures ReadCents(PrintCents(n)) == Some(n)
  {
    ReadTwoDigits(n % 100);
    ReadPrinted(n / 100);
    PlacesReadBack(PrintNumber(n / 100), TwoDigits(n % 100));
  }

  /** A score, as computed or as stored, is read back from its text; the empty text is none. */
  lemma ShownReadsBack(d: Decimal)
    requires InCents(d) >= 0
    ensures ReadCents(Shown(d)) == Some(InCents(d)) && Shown(d) != ""
  {
    match d
    case Whole(units) => ReadPrinted(units);
    case Hundredths(count) => CentsReadBack(count);
  }

  /** A score lies between the bounds, and is what was computed when that does. */
  lemma ClampedIsInScale(count: int)
    ensures 0 <= InCents(Clamped(count)) <= 10000
    ensures 0 <= count <= 10000 ==> InCents(Clamped(count)) == count
    ensures count < 0 ==> Clamped(count) == LOWEST
    ensures count > 10000 ==> Clamped(count) == HIGHEST
  {
  }

  /** What is stored prints as what was computed exactly when that lies strictly between the bounds. */
  lemma StoredShownExactlyWhen(count: int)
    ensures Shown(Stored(Clamped(count))) == Shown(Clamped(count)) <==> 0 < count < 10000
  {
    var d := Clamped(count);
    if d.Whole? {
      var text := Shown(Stored(d));
      assert text[|text| - 3] == '.';
      assert !IsNumber(text);
    }
  }

  lemma ShownScores()
    ensures Shown(Clamped(0)) == "0" && Shown(Stored(Clamped(0))) == "0.00" && Shown(Clamped(5000)) == "50.00"
  {
    assert PrintNumber(50) == PrintNumber(5) + [DigitChar(0)] && PrintNumber(5) == [DigitChar(5)];
    assert TwoDigits(0) == ['0', '0'];
  }
}
