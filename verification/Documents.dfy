/** Documents, and the string that stands for a document in a Merkle tree. */
module Documents {

  datatype ProofStatus = NotSpecified | NotProofed | AlreadyProofed

  datatype Document = Document(
    id: string,
    blockDigest: string,
    submitTime: int,
    proofTime: int,
    hash: string,
    waitDuration: int,
    metadata: string,
    txid: string,
    sign: string,
    appName: string,
    proofStatus: ProofStatus)

  /** An id is a SHA3-512 digest in hexadecimal. */
  const ID_LENGTH := 128

  const INT64_LIMIT := 0x8000_0000_0000_0000

  ghost predicate DistinctIds(docs: seq<Document>) {
    forall i, j :: 0 <= i < j < |docs| ==> docs[i].id != docs[j].id
  }

  function Ids(docs: seq<Document>): set<string> {
    set doc | doc in docs :: doc.id
  }

  // ---------------------------------------------------------------- decimal numerals

  function DigitChar(n: nat): char
    requires n < 10
  {
    ('0' as int + n) as char
  }

  predicate IsDigit(c: char) {
    '0' <= c <= '9'
  }

  /** `%d` of a number that is not negative. */
  function DecNat(n: nat): string {
    if n < 10 then [DigitChar(n)] else DecNat(n / 10) + [DigitChar(n % 10)]
  }

  /** `%d`. */
  function Dec(n: int): string {
    if n < 0 then "-" + DecNat(-n) else DecNat(n)
  }

  function Magnitude(n: int): nat {
    if n < 0 then -n else n
  }

  /** The number a numeral stands for. */
  function Value(s: string): int {
    if s == [] then 0 else 10 * Value(s[..|s|-1]) + (s[|s|-1] as int - '0' as int)
  }

  lemma {:induction false} DecNatReadsBack(n: nat)
    ensures DecNat(n) != [] && Value(DecNat(n)) == n
    ensures forall i :: 0 <= i < |DecNat(n)| ==> IsDigit(DecNat(n)[i])
    ensures n > 0 ==> DecNat(n)[0] != '0'
  {
    if n >= 10 {
      DecNatReadsBack(n / 10);
      assert DecNat(n)[..|DecNat(n)|-1] == DecNat(n / 10);
    } else {
      assert Value([]) == 0 && [DigitChar(n)][..0] == [];
    }
  }

  lemma DecInjective(m: int, n: int)
    requires Dec(m) == Dec(n)
    ensures m == n
  {
    DecNatReadsBack(Magnitude(m));
    DecNatReadsBack(Magnitude(n));
    assert m < 0 ==> Dec(m)[1..] == DecNat(-m);
    assert n < 0 ==> Dec(n)[1..] == DecNat(-n);
  }

  function Pow10(k: nat): nat {
    if k == 0 then 1 else 10 * Pow10(k - 1)
  }

  lemma {:induction false} DecNatLength(n: nat, k: nat)
    requires k > 0 && Pow10(k - 1) <= n < Pow10(k)
    ensures |DecNat(n)| == k
  {
    if k > 1 { DecNatLength(n / 10, k - 1); }
  }

  // ---------------------------------------------------------------- leaves

  /** The part of a document that its leaf is made of. */
  datatype Core = Core(id: string, submitTime: int, waitDuration: int, metadata: string)

  function CoreOf(doc: Document): Core {
    Core(doc.id, doc.submitTime, doc.waitDuration, doc.metadata)
  }

  /** `%s%d%d%s`: no separators. */
  function Leaf(c: Core): string {
    c.id + Dec(c.submitTime) + Dec(c.waitDuration) + c.metadata
  }

  /** Submitted between September 2001 and the end of the 64-bit nanosecond clock: 19 digits. */
  predicate Timely(c: Core) {
    1_000_000_000_000_000_000 <= c.submitTime < INT64_LIMIT
  }

  /** The leading digits of a's metadata are trailing digits of b's duration. */
  ghost predicate DigitsMoved(a: Core, b: Core) {
    var d := |Dec(b.waitDuration)| - |Dec(a.waitDuration)|;
    && 0 <= d <= |a.metadata|
    && (forall i :: 0 <= i < d ==> IsDigit(a.metadata[i]))
    && Dec(b.waitDuration) == Dec(a.waitDuration) + a.metadata[..d]
    && b.metadata == a.metadata[d..]
  }

  lemma IdIsLeafPrefix(a: Core, b: Core)
    requires Leaf(a) == Leaf(b) && |a.id| == |b.id|
    ensures a.id == b.id
  {
    assert Leaf(a)[..|a.id|] == a.id && Leaf(b)[..|b.id|] == b.id;
  }

  lemma SameLengthSplit(a: string, b: string, x: string, y: string)
    requires a + x == b + y && |a| == |b|
    ensures a == b && x == y
  {
    assert (a + x)[..|a|] == a && (b + y)[..|b|] == b;
    assert (a + x)[|a|..] == x && (b + y)[|b|..] == y;
  }

  lemma TimelyLength(c: Core)
    requires Timely(c)
    ensures |Dec(c.submitTime)| == 19
  {
    assert Pow10(18) == 1_000_000_000_000_000_000 && Pow10(19) == 10 * Pow10(18) by {
      assert Pow10(3) == 1000;
      assert Pow10(6) == 1000_000;
      assert Pow10(9) == 1000_000_000;
      assert Pow10(12) == 1000_000_000_000;
      assert Pow10(15) == 1000_000_000_000_000;
    }
    DecNatLength(c.submitTime, 19);
  }

  /** After its first character a numeral has only digits. */
  lemma NumeralDigits(n: int, i: nat)
    requires 0 < i < |Dec(n)|
    ensures IsDigit(Dec(n)[i])
  {
    DecNatReadsBack(Magnitude(n));
  }

  lemma NumeralNonempty(n: int)
    ensures Dec(n) != []
  {
    DecNatReadsBack(Magnitude(n));
  }

  lemma LongerNumeral(a: Core, b: Core)
    requires Dec(a.waitDuration) + a.metadata == Dec(b.waitDuration) + b.metadata
    requires |Dec(a.waitDuration)| <= |Dec(b.waitDuration)|
    ensures DigitsMoved(a, b)
  {
    var da, db := Dec(a.waitDuration), Dec(b.waitDuration);
    var d := |db| - |da|;
    var all := da + a.metadata;
    assert all == db + b.metadata && |da| + d <= |all|;
    assert all[..|db|] == db == da + a.metadata[..d];
    assert all[|db|..] == b.metadata == a.metadata[d..];
    NumeralNonempty(a.waitDuration);
    forall i | 0 <= i < d ensures IsDigit(a.metadata[i]) {
      NumeralDigits(b.waitDuration, |da| + i);
      assert a.metadata[i] == all[|da| + i] == db[|da| + i];
    }
  }

  lemma LeafSplits(c: Core)
    ensures Leaf(c) == c.id + (Dec(c.submitTime) + (Dec(c.waitDuration) + c.metadata))
  {
  }

  lemma LeafParts(a: Core, b: Core)
    requires |a.id| == |b.id| && Timely(a) && Timely(b) && Leaf(a) == Leaf(b)
    ensures a.id == b.id && a.submitTime == b.submitTime
    ensures Dec(a.waitDuration) + a.metadata == Dec(b.waitDuration) + b.metadata
  {
    var ra, rb := Dec(a.waitDuration) + a.metadata, Dec(b.waitDuration) + b.metadata;
    LeafSplits(a);
    LeafSplits(b);
    SameLengthSplit(a.id, b.id, Dec(a.submitTime) + ra, Dec(b.submitTime) + rb);
    TimelyLength(a);
    TimelyLength(b);
    SameLengthSplit(Dec(a.submitTime), Dec(b.submitTime), ra, rb);
    DecInjective(a.submitTime, b.submitTime);
  }

  lemma SameRest(a: Core, b: Core)
    requires a.id == b.id && a.submitTime == b.submitTime
    requires Dec(a.waitDuration) + a.metadata == Dec(b.waitDuration) + b.metadata
    ensures Leaf(a) == Leaf(b)
  {
    assert Leaf(a) == a.id + Dec(a.submitTime) + (Dec(a.waitDuration) + a.metadata);
    assert Leaf(b) == b.id + Dec(b.submitTime) + (Dec(b.waitDuration) + b.metadata);
  }

  lemma MovedDigitsShareLeaf(a: Core, b: Core)
    requires a.id == b.id && a.submitTime == b.submitTime && DigitsMoved(a, b)
    ensures Leaf(a) == Leaf(b)
  {
    var d := |Dec(b.waitDuration)| - |Dec(a.waitDuration)|;
    assert a.metadata == a.metadata[..d] + b.metadata;
    assert Dec(a.waitDuration) + a.metadata == Dec(a.waitDuration) + a.metadata[..d] + b.metadata;
    SameRest(a, b);
  }

  /** Two documents share a leaf exactly if they agree on id and submission time, and on duration and
      metadata up to digits that can be read as belonging to either. */
  lemma LeafCollisions(a: Core, b: Core)
    requires |a.id| == |b.id| && Timely(a) && Timely(b)
    ensures Leaf(a) == Leaf(b) <==>
            a.id == b.id && a.submitTime == b.submitTime && (DigitsMoved(a, b) || DigitsMoved(b, a))
  {
    if Leaf(a) == Leaf(b) {
      LeafParts(a, b);
      if |Dec(a.waitDuration)| <= |Dec(b.waitDuration)| {
        LongerNumeral(a, b);
      } else {
        LongerNumeral(b, a);
      }
    } else if a.id == b.id && a.submitTime == b.submitTime {
      if DigitsMoved(a, b) { MovedDigitsShareLeaf(a, b); }
      if DigitsMoved(b, a) { MovedDigitsShareLeaf(b, a); }
    }
  }

  predicate StartsWithDigit(metadata: string) {
    metadata != [] && IsDigit(metadata[0])
  }

  lemma NoDigitsLeft(a: Core, b: Core)
    requires DigitsMoved(a, b) && |Dec(b.waitDuration)| == |Dec(a.waitDuration)|
    ensures a.waitDuration == b.waitDuration && a.metadata == b.metadata
  {
    assert a.metadata[..0] == [] && a.metadata[0..] == a.metadata;
    DecInjective(a.waitDuration, b.waitDuration);
  }

  lemma NoDigitsMoved(a: Core, b: Core)
    requires DigitsMoved(a, b) && !StartsWithDigit(a.metadata)
    ensures a.waitDuration == b.waitDuration && a.metadata == b.metadata
  {
    assert |Dec(b.waitDuration)| == |Dec(a.waitDuration)|;
    NoDigitsLeft(a, b);
  }

  /** Metadata that does not start with a digit leaves nothing to misread. */
  lemma LeafInjective(a: Core, b: Core)
    requires |a.id| == |b.id| && Timely(a) && Timely(b) && Leaf(a) == Leaf(b)
    requires !StartsWithDigit(a.metadata) && !StartsWithDigit(b.metadata)
    ensures a == b
  {
    LeafCollisions(a, b);
    if DigitsMoved(a, b) { NoDigitsMoved(a, b); } else { NoDigitsMoved(b, a); }
  }

  // ---------------------------------------------------------------- doubles

  predicate Int64(n: int) {
    -INT64_LIMIT <= n < INT64_LIMIT
  }

  /** Another document that a tree cannot tell from this one. */
  ghost predicate Doubles(a: Core, b: Core) {
    b != a && |b.id| == |a.id| && Timely(b) && Int64(b.waitDuration) && Leaf(b) == Leaf(a)
  }

  function Digit(c: char): int {
    c as int - '0' as int
  }

  /** The number read when one more digit follows the numeral of n. */
  function Longer(n: int, c: char): int {
    if n < 0 then 10 * n - Digit(c) else 10 * n + Digit(c)
  }

  /** The number read when the last digit of the numeral of n is left off. */
  function Shorter(n: int): int {
    if n < 0 then -(-n / 10) else n / 10
  }

  lemma DecLonger(n: int, c: char)
    requires n != 0 && IsDigit(c)
    ensures Dec(Longer(n, c)) == Dec(n) + [c]
  {
    var m := Magnitude(n);
    var longer := 10 * m + Digit(c);
    assert longer / 10 == m && longer % 10 == Digit(c);
    assert DecNat(longer) == DecNat(m) + [c];
  }

  lemma DecShorter(n: int)
    requires n >= 10 || n <= -10
    ensures Dec(n) == Dec(Shorter(n)) + [Dec(n)[|Dec(n)|-1]] && IsDigit(Dec(n)[|Dec(n)|-1])
  {
  }

  lemma {:induction false} ExtendedNumeral(m: nat, n: nat, digits: string)
    requires digits != [] && DecNat(n) == DecNat(m) + digits
    ensures m > 0 && 10 * m + Digit(digits[0]) <= n
  {
    var k := |digits| - 1;
    DecNatReadsBack(m);
    DecNatReadsBack(n);
    assert |DecNat(n)| >= 2 && DecNat(n)[..|DecNat(n)|-1] == DecNat(n / 10) == DecNat(m) + digits[..k];
    if k == 0 {
      assert DecNat(n / 10) == DecNat(m);
      DecInjective(n / 10, m);
      assert DecNat(n)[|DecNat(n)|-1] == DigitChar(n % 10) == digits[0];
      assert DecNat(n)[0] == DecNat(m)[0];
    } else {
      ExtendedNumeral(m, n / 10, digits[..k]);
    }
  }

  lemma SignIsFirst(n: int)
    ensures Dec(n) != [] && (Dec(n)[0] == '-' <==> n < 0)
    ensures Dec(n)[if n < 0 then 1 else 0..] == DecNat(Magnitude(n))
  {
    DecNatReadsBack(Magnitude(n));
    assert IsDigit(DecNat(Magnitude(n))[0]);
  }

  lemma SameSign(m: int, n: int, digits: string)
    requires Dec(n) == Dec(m) + digits
    ensures m < 0 <==> n < 0
    ensures DecNat(Magnitude(n)) == DecNat(Magnitude(m)) + digits
  {
    SignIsFirst(m);
    SignIsFirst(n);
    var k := if m < 0 then 1 else 0;
    assert (Dec(m) + digits)[0] == Dec(m)[0];
    assert (Dec(m) + digits)[k..] == Dec(m)[k..] + digits;
  }

  /** `%d` is read as usual: a sign if the number is negative, and decimal digits, without zeros in front. */
  lemma NumeralReadsBack(n: int)
    ensures var sign := if n < 0 then 1 else 0;
            && |Dec(n)| > sign && (Dec(n)[0] == '-' <==> n < 0)
            && (forall i :: sign <= i < |Dec(n)| ==> '0' <= Dec(n)[i] <= '9')
            && (Dec(n)[sign] == '0' ==> n == 0)
            && Value(Dec(n)[sign..]) == if n < 0 then -n else n
  {
    SignIsFirst(n);
    DecNatReadsBack(Magnitude(n));
    var sign := if n < 0 then 1 else 0;
    forall i | sign <= i < |Dec(n)| ensures '0' <= Dec(n)[i] <= '9' {
      assert Dec(n)[i] == DecNat(Magnitude(n))[i - sign];
    }
  }

  lemma GivesDigit(a: Core)
    requires Timely(a) && Int64(a.waitDuration) && (a.waitDuration >= 10 || a.waitDuration <= -10)
    ensures exists b :: Doubles(a, b)
  {
    var c := Dec(a.waitDuration)[|Dec(a.waitDuration)|-1];
    var b := a.(waitDuration := Shorter(a.waitDuration), metadata := [c] + a.metadata);
    DecShorter(a.waitDuration);
    assert Dec(b.waitDuration) + b.metadata == Dec(a.waitDuration) + a.metadata;
    SameRest(a, b);
    assert Doubles(a, b);
  }

  lemma TakesDigit(a: Core)
    requires Timely(a) && a.waitDuration != 0 && StartsWithDigit(a.metadata)
    requires Int64(Longer(a.waitDuration, a.metadata[0]))
    ensures exists b :: Doubles(a, b)
  {
    var b := a.(waitDuration := Longer(a.waitDuration, a.metadata[0]), metadata := a.metadata[1..]);
    DecLonger(a.waitDuration, a.metadata[0]);
    assert a.metadata == [a.metadata[0]] + a.metadata[1..];
    assert Dec(b.waitDuration) + b.metadata == Dec(a.waitDuration) + a.metadata;
    SameRest(a, b);
    assert Doubles(a, b);
  }

  /** Digits can only move in front of another number if there is one more digit to read, and a number to read it to. */
  lemma MovedDigitsFit(a: Core, b: Core)
    requires DigitsMoved(a, b) && b != a && b.id == a.id && b.submitTime == a.submitTime && Int64(b.waitDuration)
    ensures StartsWithDigit(a.metadata) && a.waitDuration != 0 && Int64(Longer(a.waitDuration, a.metadata[0]))
  {
    var m, n := a.waitDuration, b.waitDuration;
    var digits := a.metadata[..|Dec(n)| - |Dec(m)|];
    if digits == [] { NoDigitsLeft(a, b); }
    SameSign(m, n, digits);
    ExtendedNumeral(Magnitude(m), Magnitude(n), digits);
  }

  lemma MovedDigitsLong(b: Core, a: Core)
    requires DigitsMoved(b, a) && b != a && b.id == a.id && b.submitTime == a.submitTime
    ensures a.waitDuration >= 10 || a.waitDuration <= -10
  {
    var m, n := b.waitDuration, a.waitDuration;
    var digits := b.metadata[..|Dec(n)| - |Dec(m)|];
    if digits == [] { NoDigitsLeft(b, a); }
    SameSign(m, n, digits);
    ExtendedNumeral(Magnitude(m), Magnitude(n), digits);
  }

  /** Which documents have a double that a document can be: those whose duration has a digit to give to the metadata,
      and those whose metadata has one to give to the duration, if there is room for it in 64 bits. */
  lemma LeafDoublesWhen(a: Core)
    requires Timely(a) && Int64(a.waitDuration)
    ensures (exists b :: Doubles(a, b))
       <==> || a.waitDuration >= 10 || a.waitDuration <= -10
            || (a.waitDuration != 0 && StartsWithDigit(a.metadata) && Int64(Longer(a.waitDuration, a.metadata[0])))
  {
    if a.waitDuration >= 10 || a.waitDuration <= -10 {
      GivesDigit(a);
    } else if a.waitDuration != 0 && StartsWithDigit(a.metadata) && Int64(Longer(a.waitDuration, a.metadata[0])) {
      TakesDigit(a);
    }
    if b :| Doubles(a, b) {
      LeafCollisions(a, b);
      if DigitsMoved(a, b) {
        MovedDigitsFit(a, b);
      } else {
        MovedDigitsLong(b, a);
      }
    }
  }
}
