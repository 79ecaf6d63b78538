/** The names scans are given (src/id.rs): a millisecond and a counter, written as
    thirteen Crockford base-32 digits, most significant first.

    `u64` arithmetic is written out: every product and sum is reduced modulo 2^64. */
module ScanNames {

  const TWO_64: nat := 0x1_0000_0000_0000_0000
  const TWO_48: nat := 0x1_0000_0000_0000
  const PER_MILLISECOND: nat := 0x1_0000
  const WIDTH: nat := 13
  const ALPHABET: string := "0123456789ABCDEFGHJKMNPQRSTVWXYZ"

  // ---------------------------------------------------------------------------
  // The positional notation the names are written in.
  // ---------------------------------------------------------------------------

  function Power(width: nat): (p: nat)
    ensures p > 0
  {
    if width == 0 then 1 else 32 * Power(width - 1)
  }

  function Digit(k: nat): char
    requires k < 32
  {
    ALPHABET[k]
  }

  /** `value` modulo 32^width in `width` digits. */
  function Digits(value: nat, width: nat): (name: string)
    ensures |name| == width
  {
    if width == 0 then "" else Digits(value / 32, width - 1) + [Digit(value % 32)]
  }

  lemma {:induction false} DigitsAreDigits(value: nat, width: nat)
    ensures forall c :: c in Digits(value, width) ==> c in ALPHABET
  {
    if width > 0 {
      DigitsAreDigits(value / 32, width - 1);
    }
  }

  predicate Readable(c: char) {
    ('0' <= c <= '9' || 'A' <= c <= 'Z') && c != 'I' && c != 'L' && c != 'O' && c != 'U'
  }

  lemma DigitIsReadable(k: nat)
    requires k < 32
    ensures Readable(Digit(k))
  {
    if k < 16 {
      assert forall i :: 0 <= i < 16 ==> Readable("0123456789ABCDEF"[i]);
      assert ALPHABET[k] == "0123456789ABCDEF"[k];
    } else {
      assert forall i :: 0 <= i < 16 ==> Readable("GHJKMNPQRSTVWXYZ"[i]);
      assert ALPHABET[k] == "GHJKMNPQRSTVWXYZ"[k - 16];
    }
  }

  /** Names are in digits and capitals, and in none of the four that are mistaken for others
      (src/id.rs:24-26). As they stand in byte order, there is one such alphabet. */
  lemma {:induction false} NamesAreReadable(value: nat, width: nat, i: nat)
    requires i < width
    ensures var c := Digits(value, width)[i];
      ('0' <= c <= '9' || 'A' <= c <= 'Z') && c != 'I' && c != 'L' && c != 'O' && c != 'U'
  {
    if i == width - 1 {
      DigitIsReadable(value % 32);
    } else {
      NamesAreReadable(value / 32, width - 1, i);
    }
  }

  /** Where a character stands in the alphabet; 32 for a stranger. */
  function IndexOf(c: char): (k: nat)
    ensures k < 32 ==> ALPHABET[k] == c
    ensures c in ALPHABET ==> k < 32
  {
    IndexFrom(c, 0)
  }

  function IndexFrom(c: char, from: nat): (k: nat)
    requires from <= 32
    ensures from <= k <= 32
    ensures k < 32 ==> ALPHABET[k] == c
    ensures c in ALPHABET[from..] ==> k < 32
    decreases 32 - from
  {
    if from == 32 then 32 else if ALPHABET[from] == c then from else IndexFrom(c, from + 1)
  }

  /** Reads a name back as a number. */
  function Decode(name: string): nat {
    if name == "" then 0 else 32 * Decode(name[..|name| - 1]) + IndexOf(name[|name| - 1])
  }

  /** Byte order on strings, which is how two Rust strings compare. */
  predicate Precedes(a: string, b: string) {
    b != "" && (a == "" || a[0] < b[0] || (a[0] == b[0] && Precedes(a[1..], b[1..])))
  }

  /** The alphabet is in byte order, so a smaller digit is a smaller character. */
  lemma AlphabetAscends(i: nat, j: nat)
    requires i < j < 32
    ensures ALPHABET[i] < ALPHABET[j]
    decreases j - i
  {
    if i + 1 < j {
      AlphabetAscends(i + 1, j);
    }
    assert forall k :: 0 <= k < 31 ==> ALPHABET[k] < ALPHABET[k + 1];
  }

  lemma IndexOfDigit(k: nat)
    requires k < 32
    ensures IndexOf(Digit(k)) == k
  {
    var found := IndexOf(Digit(k));
    if found < k {
      AlphabetAscends(found, k);
    } else if k < found {
      AlphabetAscends(k, found);
    }
  }

  lemma DecodeAppend(name: string, c: char)
    ensures Decode(name + [c]) == 32 * Decode(name) + IndexOf(c)
  {
    assert (name + [c])[..|name + [c]| - 1] == name;
  }

  lemma QuotientFits(x: nat, width: nat)
    requires width > 0 && x < Power(width)
    ensures x / 32 < Power(width - 1)
  {
  }

  lemma TwoParts(value: nat)
    ensures value == 32 * (value / 32) + value % 32 && value % 32 < 32
  {
  }

  lemma DigitsEnd(value: nat, width: nat)
    requires width > 0
    ensures value % 32 < 32 && Digits(value, width) == Digits(value / 32, width - 1) + [Digit(value % 32)]
  {
  }

  lemma DecodeLast(value: nat, width: nat)
    requires width > 0 && Decode(Digits(value / 32, width - 1)) == value / 32
    ensures Decode(Digits(value, width)) == value
  {
    var q, r := value / 32, value % 32;
    TwoParts(value);
    DigitsEnd(value, width);
    IndexOfDigit(r);
    DecodeAppend(Digits(q, width - 1), Digit(r));
  }

  /** Decoding undoes encoding, up to what the width can hold. */
  lemma {:induction false} DecodeDigits(value: nat, width: nat)
    requires value < Power(width)
    ensures Decode(Digits(value, width)) == value
  {
    if width > 0 {
      QuotientFits(value, width);
      DecodeDigits(value / 32, width - 1);
      DecodeLast(value, width);
    }
  }

  // ---------------------------------------------------------------------------
  // Order: strings of one width compare as the numbers they stand for.
  // ---------------------------------------------------------------------------

  lemma {:induction false} PrecedesAppend(a: string, b: string, c: char, d: char)
    requires |a| == |b|
    ensures Precedes(a + [c], b + [d]) <==> Precedes(a, b) || (a == b && c < d)
  {
    if a != "" {
      assert (a + [c])[1..] == a[1..] + [c] && (b + [d])[1..] == b[1..] + [d];
      PrecedesAppend(a[1..], b[1..], c, d);
      assert a == [a[0]] + a[1..] && b == [b[0]] + b[1..];
    } else {
      assert a + [c] == [c] && b + [d] == [d];
    }
  }

  lemma AlphabetOrder(i: nat, j: nat)
    requires i < 32 && j < 32
    ensures Digit(i) < Digit(j) <==> i < j
  {
    if i < j {
      AlphabetAscends(i, j);
    } else if j < i {
      AlphabetAscends(j, i);
    }
  }

  lemma QuotientThenRemainder(x: nat, y: nat)
    ensures x < y <==> x / 32 < y / 32 || (x / 32 == y / 32 && x % 32 < y % 32)
  {
  }

  /** String order is numeric order, both ways round. */
  lemma {:induction false} OrderIsNumeric(x: nat, y: nat, width: nat)
    requires x < Power(width) && y < Power(width)
    ensures Precedes(Digits(x, width), Digits(y, width)) <==> x < y
  {
    if width > 0 {
      QuotientFits(x, width);
      QuotientFits(y, width);
      OrderIsNumeric(x / 32, y / 32, width - 1);
      EqualDigits(x / 32, y / 32, width - 1);
      AlphabetOrder(x % 32, y % 32);
      PrecedesAppend(Digits(x / 32, width - 1), Digits(y / 32, width - 1), Digit(x % 32), Digit(y % 32));
      QuotientThenRemainder(x, y);
    }
  }

  /** The notation is injective on what the width can hold. */
  lemma EqualDigits(x: nat, y: nat, width: nat)
    requires x < Power(width) && y < Power(width)
    ensures Digits(x, width) == Digits(y, width) <==> x == y
  {
    DecodeDigits(x, width);
    DecodeDigits(y, width);
  }

  lemma WidthHoldsEveryWord()
    ensures TWO_64 <= Power(WIDTH)
  {
    assert Power(5) == 0x200_0000;
    assert Power(9) == 0x2000_0000_0000;
    assert Power(12) == 0x1000_0000_0000_0000;
  }

  // ---------------------------------------------------------------------------
  // encode (src/id.rs:48-57)
  // ---------------------------------------------------------------------------

  /** Fills thirteen slots from the last to the first, dividing as it goes. */
  method Encode(value: nat) returns (name: string)
    requires value < TWO_64
    ensures name == Digits(value, WIDTH)
    ensures Decode(name) == value
  {
    var out := new char[WIDTH](_ => '0');
    var rest := value;
    var slot := out.Length;
    while slot > 0
      invariant 0 <= slot <= out.Length
      invariant Digits(value, out.Length) == Digits(rest, slot) + out[slot..]
    {
      slot := slot - 1;
      ghost var done := out[slot + 1..];
      out[slot] := Digit(rest % 32);
      assert out[slot..] == [Digit(rest % 32)] + done;
      LastDigit(rest, slot, done);
      rest := rest / 32;
    }
    name := out[..];
    assert out[slot..] == name;
    NameReadsBack(value);
  }

  lemma LastDigit(rest: nat, slot: nat, done: string)
    ensures Digits(rest, slot + 1) + done == Digits(rest / 32, slot) + ([Digit(rest % 32)] + done)
  {
  }

  /** `encode` is invertible on every 64-bit value, hence injective. */
  lemma NameReadsBack(value: nat)
    requires value < TWO_64
    ensures Decode(Digits(value, WIDTH)) == value
  {
    WidthHoldsEveryWord();
    DecodeDigits(value, WIDTH);
  }

  // ---------------------------------------------------------------------------
  // mint (src/id.rs:35-44)
  // ---------------------------------------------------------------------------

  function WrappingMul(a: nat, b: nat): nat { a * b % TWO_64 }

  function WrappingAdd(a: nat, b: nat): nat { (a + b) % TWO_64 }

  /** The word a millisecond and a drawn counter are packed into, wrapping as `u64` does. */
  function Word(millis: nat, drawn: nat): (w: nat)
    ensures w < TWO_64
  {
    WrappingAdd(WrappingMul(millis, PER_MILLISECOND), drawn % PER_MILLISECOND)
  }

  function NameOf(millis: nat, drawn: nat): string {
    Digits(Word(millis, drawn), WIDTH)
  }

  /** The process-wide counter. */
  class Mint {
    var counter: nat

    ghost predicate Valid() reads this { counter < TWO_64 }

    constructor ()
      ensures Valid() && counter == 0
    {
      counter := 0;
    }

    method Next(millis: nat) returns (name: string)
      requires Valid() && millis < TWO_64
      modifies this
      ensures Valid()
      ensures name == NameOf(millis, old(counter))
      ensures counter == WrappingAdd(old(counter), 1)
    {
      var drawn := counter;
      counter := WrappingAdd(counter, 1);
      name := Encode(Word(millis, drawn));
    }
  }

  /** Below 2^48 milliseconds (ten thousand years of them) nothing wraps away. */
  lemma WordIsPacked(millis: nat, drawn: nat)
    requires millis < TWO_48
    ensures Word(millis, drawn) == millis * PER_MILLISECOND + drawn % PER_MILLISECOND
  {
    assert millis * PER_MILLISECOND <= (TWO_48 - 1) * PER_MILLISECOND;
  }

  /** A name is thirteen digits, and read back holds its millisecond and the low sixteen bits of
      its counter. */
  lemma NameHoldsItsMoment(millis: nat, drawn: nat)
    requires millis < 0x1_0000_0000_0000
    ensures |NameOf(millis, drawn)| == 13
    ensures Decode(NameOf(millis, drawn)) / 65536 == millis
    ensures Decode(NameOf(millis, drawn)) % 65536 == drawn % 65536
  {
    WordIsPacked(millis, drawn);
    NameReadsBack(Word(millis, drawn));
    RemainderUnique(Word(millis, drawn), millis, drawn % PER_MILLISECOND);
  }

  /** Names sort by millisecond first, and by the counter's low sixteen bits within one. */
  lemma NamesSort(m1: nat, c1: nat, m2: nat, c2: nat)
    requires m1 < TWO_48 && m2 < TWO_48
    ensures Precedes(NameOf(m1, c1), NameOf(m2, c2))
       <==> m1 < m2 || (m1 == m2 && c1 % PER_MILLISECOND < c2 % PER_MILLISECOND)
  {
    WordIsPacked(m1, c1);
    WordIsPacked(m2, c2);
    WidthHoldsEveryWord();
    OrderIsNumeric(Word(m1, c1), Word(m2, c2), WIDTH);
  }

  /** Two names are one exactly when both halves agree. */
  lemma NamesEqual(m1: nat, c1: nat, m2: nat, c2: nat)
    requires m1 < TWO_48 && m2 < TWO_48
    ensures NameOf(m1, c1) == NameOf(m2, c2)
       <==> m1 == m2 && c1 % PER_MILLISECOND == c2 % PER_MILLISECOND
  {
    WordIsPacked(m1, c1);
    WordIsPacked(m2, c2);
    WidthHoldsEveryWord();
    DecodeDigits(Word(m1, c1), WIDTH);
    DecodeDigits(Word(m2, c2), WIDTH);
  }

  // ---------------------------------------------------------------------------
  // Whole runs of the mint. `clock[k]` is the millisecond the k-th call read, and the k-th
  // call is the `first + k`-th draw of the counter. The counter itself wraps at 2^64, which
  // no name can tell.
  // ---------------------------------------------------------------------------

  lemma CounterWrapIsUnseen(millis: nat, drawn: nat)
    ensures NameOf(millis, drawn % TWO_64) == NameOf(millis, drawn)
  {
    DrawnLowBits(drawn);
  }

  function Named(clock: seq<nat>, first: nat, k: nat): string
    requires k < |clock|
  {
    NameOf(clock[k], first + k)
  }

  lemma DrawnLowBits(n: nat)
    ensures n % TWO_64 % PER_MILLISECOND == n % PER_MILLISECOND
  {
    var q := n / TWO_64;
    assert n == q * TWO_64 + n % TWO_64;
    assert n == (q * 0x1_0000_0000_0000) * PER_MILLISECOND + n % TWO_64;
    SameRemainder(n % TWO_64, q * 0x1_0000_0000_0000);
  }

  lemma SameRemainder(n: nat, q: nat)
    ensures (q * PER_MILLISECOND + n) % PER_MILLISECOND == n % PER_MILLISECOND
  {
    var whole := n / PER_MILLISECOND;
    assert q * PER_MILLISECOND + n == (q + whole) * PER_MILLISECOND + n % PER_MILLISECOND;
    RemainderUnique(q * PER_MILLISECOND + n, q + whole, n % PER_MILLISECOND);
  }

  lemma RemainderUnique(n: nat, q: nat, r: nat)
    requires n == q * PER_MILLISECOND + r && r < PER_MILLISECOND
    ensures n % PER_MILLISECOND == r
  {
  }

  lemma WholeWraps(d: nat)
    requires d > 0
    ensures d % PER_MILLISECOND == 0 ==> d >= PER_MILLISECOND
  {
  }

  lemma DifferenceOfRemainders(a: nat, b: nat)
    requires a <= b
    ensures a % PER_MILLISECOND == b % PER_MILLISECOND <==> (b - a) % PER_MILLISECOND == 0
  {
    var qa, qb := a / PER_MILLISECOND, b / PER_MILLISECOND;
    if a % PER_MILLISECOND == b % PER_MILLISECOND {
      RemainderUnique(b - a, qb - qa, 0);
    }
    if (b - a) % PER_MILLISECOND == 0 {
      SameRemainder(a, (b - a) / PER_MILLISECOND);
    }
  }

  /** When draws `a` and `b` of the counter come out as one name: one millisecond, and a whole
      number of its wraps between them. So a name comes back only after 65536 further draws. */
  lemma NameComesBack(m1: nat, a: nat, m2: nat, b: nat)
    requires m1 < TWO_48 && m2 < TWO_48 && a < b
    ensures NameOf(m1, a) == NameOf(m2, b) <==> m1 == m2 && (b - a) % PER_MILLISECOND == 0
    ensures NameOf(m1, a) == NameOf(m2, b) ==> b - a >= PER_MILLISECOND
  {
    NamesEqual(m1, a, m2, b);
    DifferenceOfRemainders(a, b);
    WholeWraps(b - a);
  }

  /** Two calls of a run that read one millisecond, whole wraps of the counter apart. */
  predicate Clash(clock: seq<nat>, k: nat, l: nat)
    requires k < l < |clock|
  {
    clock[k] == clock[l] && (l - k) % PER_MILLISECOND == 0
  }

  lemma ClashExactly(clock: seq<nat>, first: nat, k: nat, l: nat)
    requires k < l < |clock| && clock[k] < TWO_48 && clock[l] < TWO_48
    ensures Named(clock, first, k) == Named(clock, first, l) <==> Clash(clock, k, l)
  {
    NameComesBack(clock[k], first + k, clock[l], first + l);
  }

  ghost predicate AllDistinct(clock: seq<nat>, first: nat) {
    forall k, l :: 0 <= k < l < |clock| ==> Named(clock, first, k) != Named(clock, first, l)
  }

  ghost predicate NoneClash(clock: seq<nat>) {
    forall k, l :: 0 <= k < l < |clock| ==> !Clash(clock, k, l)
  }

  /** "Unique on this host": a run of calls hands out no name twice exactly when no
      millisecond is read by two calls a multiple of 65536 apart. */
  lemma NamesDistinctExactly(clock: seq<nat>, first: nat)
    requires forall i :: 0 <= i < |clock| ==> clock[i] < TWO_48
    ensures AllDistinct(clock, first) <==> NoneClash(clock)
  {
    forall k: nat, l: nat | k < l < |clock|
      ensures Named(clock, first, k) == Named(clock, first, l) <==> Clash(clock, k, l)
    {
      ClashExactly(clock, first, k, l);
    }
  }

  lemma SameDrawExactly(clock: seq<nat>, first: nat, k: nat, other: seq<nat>, start: nat, l: nat)
    requires k < |clock| && l < |other| && clock[k] < TWO_48 && other[l] < TWO_48
    ensures Named(clock, first, k) == Named(other, start, l) <==> SameDraw(clock, first, k, other, start, l)
  {
    NamesEqual(clock[k], first + k, other[l], start + l);
  }

  ghost predicate Apart(clock: seq<nat>, first: nat, other: seq<nat>, start: nat) {
    forall k, l :: 0 <= k < |clock| && 0 <= l < |other| ==> Named(clock, first, k) != Named(other, start, l)
  }

  /** The host may run more than one daemon, each counting from nothing: their names are apart
      exactly when no call of the one read the millisecond of a call of the other that drew the
      same sixteen bits. */
  lemma TwoDaemonsApartExactly(clock: seq<nat>, first: nat, other: seq<nat>, start: nat)
    requires forall i :: 0 <= i < |clock| ==> clock[i] < TWO_48
    requires forall i :: 0 <= i < |other| ==> other[i] < TWO_48
    ensures Apart(clock, first, other, start)
       <==> (forall k, l :: 0 <= k < |clock| && 0 <= l < |other| ==> !SameDraw(clock, first, k, other, start, l))
  {
    forall k: nat, l: nat | k < |clock| && l < |other|
      ensures Named(clock, first, k) == Named(other, start, l) <==> SameDraw(clock, first, k, other, start, l)
    {
      SameDrawExactly(clock, first, k, other, start, l);
    }
  }

  predicate SameDraw(clock: seq<nat>, first: nat, k: nat, other: seq<nat>, start: nat, l: nat)
    requires k < |clock| && l < |other|
  {
    clock[k] == other[l] && (first + k) % PER_MILLISECOND == (start + l) % PER_MILLISECOND
  }

  /** So "unique on this host" fails for two daemons whose first scans start together. */
  lemma TwoDaemonsCanClash(clock: seq<nat>, other: seq<nat>)
    requires clock != [] && other != [] && clock[0] == other[0]
    ensures Named(clock, 0, 0) == Named(other, 0, 0)
  {
  }

  lemma WrapRemainders()
    ensures PER_MILLISECOND % PER_MILLISECOND == 0
    ensures (PER_MILLISECOND - 1) % PER_MILLISECOND == PER_MILLISECOND - 1
  {
  }

  /** "Names sort into the order the scans started" does not hold across a counter wrap: two
      calls in one millisecond, the first drawing 65535. */
  lemma LaterNameCanSortEarlier(millis: nat)
    requires millis < TWO_48
    ensures Precedes(NameOf(millis, PER_MILLISECOND), NameOf(millis, PER_MILLISECOND - 1))
  {
    var wrapped, last := PER_MILLISECOND, PER_MILLISECOND - 1;
    WrapRemainders();
    assert wrapped % PER_MILLISECOND < last % PER_MILLISECOND;
    NamesSort(millis, wrapped, millis, last);
  }

  /** It holds of two successive calls exactly when the clock moved forward, or stood still
      and the counter did not wrap. */
  lemma SuccessiveNamesSortExactly(m1: nat, m2: nat, drawn: nat)
    requires m1 < TWO_48 && m2 < TWO_48
    ensures Precedes(NameOf(m1, drawn), NameOf(m2, drawn + 1))
       <==> m1 < m2 || (m1 == m2 && drawn % PER_MILLISECOND != PER_MILLISECOND - 1)
  {
    NamesSort(m1, drawn, m2, drawn + 1);
    NextDraw(drawn);
  }

  lemma NextDraw(drawn: nat)
    ensures drawn % PER_MILLISECOND < (drawn + 1) % PER_MILLISECOND
       <==> drawn % PER_MILLISECOND != PER_MILLISECOND - 1
  {
    var q, r := drawn / PER_MILLISECOND, drawn % PER_MILLISECOND;
    if r == PER_MILLISECOND - 1 {
      RemainderUnique(drawn + 1, q + 1, 0);
    } else {
      RemainderUnique(drawn + 1, q, r + 1);
    }
  }

  // Whole runs in order.

  /** Earlier by what the names are made of. */
  predicate Earlier(clock: seq<nat>, first: nat, k: nat, l: nat)
    requires k < |clock| && l < |clock|
  {
    clock[k] < clock[l] || (clock[k] == clock[l] && (first + k) % PER_MILLISECOND < (first + l) % PER_MILLISECOND)
  }

  lemma EarlierExactly(clock: seq<nat>, first: nat, k: nat, l: nat)
    requires k < |clock| && l < |clock| && clock[k] < TWO_48 && clock[l] < TWO_48
    ensures Precedes(Named(clock, first, k), Named(clock, first, l)) <==> Earlier(clock, first, k, l)
  {
    NamesSort(clock[k], first + k, clock[l], first + l);
  }

  /** The clock went forward, or stood still and the counter did not wrap. */
  predicate StepsOn(clock: seq<nat>, first: nat, k: nat)
    requires k + 1 < |clock|
  {
    clock[k] < clock[k + 1]
    || (clock[k] == clock[k + 1] && (first + k) % PER_MILLISECOND != PER_MILLISECOND - 1)
  }

  lemma StepsOnExactly(clock: seq<nat>, first: nat, k: nat)
    requires k + 1 < |clock|
    ensures StepsOn(clock, first, k) <==> Earlier(clock, first, k, k + 1)
  {
    NextDraw(first + k);
  }

  lemma {:induction false} StepsAddUp(clock: seq<nat>, first: nat, k: nat, l: nat)
    requires k < l < |clock|
    requires forall i :: 0 <= i < |clock| - 1 ==> StepsOn(clock, first, i)
    ensures Earlier(clock, first, k, l)
  {
    StepsOnExactly(clock, first, l - 1);
    if k < l - 1 {
      StepsAddUp(clock, first, k, l - 1);
    }
  }

  /** A whole run of names is in the order the scans started exactly when every call but the
      first read a later millisecond than the one before it, or the same one without the counter
      wrapping between them. */
  lemma RunSortsExactly(clock: seq<nat>, first: nat)
    requires forall i :: 0 <= i < |clock| ==> clock[i] < TWO_48
    ensures InOrder(clock, first) <==> forall i :: 0 <= i < |clock| - 1 ==> StepsOn(clock, first, i)
  {
    forall k: nat, l: nat | k < l < |clock|
      ensures Precedes(Named(clock, first, k), Named(clock, first, l)) <==> Earlier(clock, first, k, l)
    {
      EarlierExactly(clock, first, k, l);
    }
    EarlierAllExactly(clock, first);
  }

  ghost predicate InOrder(clock: seq<nat>, first: nat) {
    forall k, l :: 0 <= k < l < |clock| ==> Precedes(Named(clock, first, k), Named(clock, first, l))
  }

  lemma EarlierAllExactly(clock: seq<nat>, first: nat)
    ensures (forall k, l :: 0 <= k < l < |clock| ==> Earlier(clock, first, k, l))
       <==> (forall i :: 0 <= i < |clock| - 1 ==> StepsOn(clock, first, i))
  {
    if forall i :: 0 <= i < |clock| - 1 ==> StepsOn(clock, first, i) {
      forall k: nat, l: nat | k < l < |clock|
        ensures Earlier(clock, first, k, l)
      {
        StepsAddUp(clock, first, k, l);
      }
    }
    if forall k, l :: 0 <= k < l < |clock| ==> Earlier(clock, first, k, l) {
      forall i: nat | i < |clock| - 1
        ensures StepsOn(clock, first, i)
      {
        StepsOnExactly(clock, first, i);
      }
    }
  }
}
