/**
 The directory name of a working directory (internal/claude/project_dir.go). Text is a sequence of code points in and
 of UTF-16 code units out; every unit of a name is ASCII, where the two are the same.
 */
module ProjectDir {
  const MAX_UNITS := 200
  const REPLACEMENT := 0xFFFD
  const WORD := 0x1_0000_0000
  const HALF := 0x8000_0000

  /** A Go rune; anything outside Unicode's scalar values is encoded as the replacement character. */
  type Rune = int
  type Unit = u: int | 0 <= u < 0x1_0000
  type Int32 = i: int | -0x8000_0000 <= i < 0x8000_0000

  /** UTF-16 (section 2.1 of RFC 2781). */
  function EncodeRune(r: Rune): seq<Unit> {
    if 0 <= r < 0xD800 || 0xE000 <= r < 0x1_0000 then [r]
    else if 0x1_0000 <= r <= 0x10_FFFF then [0xD800 + (r - 0x1_0000) / 0x400, 0xDC00 + (r - 0x1_0000) % 0x400]
    else [REPLACEMENT]
  }

  function Encode(path: seq<Rune>): seq<Unit> {
    if path == [] then [] else EncodeRune(path[0]) + Encode(path[1..])
  }

  predicate Alphanumeric(u: Unit) {
    'a' as int <= u <= 'z' as int || 'A' as int <= u <= 'Z' as int || '0' as int <= u <= '9' as int
  }

  const DASH: Unit := '-' as int

  predicate NameUnit(u: Unit) {
    Alphanumeric(u) || u == DASH
  }

  function Clean(u: Unit): Unit {
    if Alphanumeric(u) then u else DASH
  }

  function Sanitized(units: seq<Unit>): (s: seq<Unit>)
    ensures |s| == |units|
    ensures forall i :: 0 <= i < |s| ==> s[i] == Clean(units[i])
  {
    seq(|units|, i requires 0 <= i < |units| => Clean(units[i]))
  }

  /******* The hash *******/

  /** The path read as a base-31 numeral. */
  function Polynomial(units: seq<Unit>): nat {
    if units == [] then 0 else Polynomial(units[..|units| - 1]) * 31 + units[|units| - 1]
  }

  /** Go's conversion of an overflowing sum back to int32. */
  function Wrap(x: int): Int32 {
    (x + HALF) % WORD - HALF
  }

  /** `r` is the signed 32-bit residue of `p`. */
  predicate Residue(p: int, r: int) {
    -HALF <= r < HALF && (p - r) % WORD == 0
  }

  function Abs(x: int): nat { if x < 0 then -x else x }

  lemma WrapResidue(p: int, r: int)
    ensures r == Wrap(p) <==> Residue(p, r)
  {
  }

  /** Wrapping early does not change the residue. */
  lemma WrapOnce(a: int, u: int)
    ensures Wrap(Wrap(a) * 31 + u) == Wrap(a * 31 + u)
  {
  }

  /** The wrapping 32-bit loop computes the absolute value of the signed residue of the whole polynomial, -2^31
      included. */
  method Magnitude(units: seq<Unit>) returns (magnitude: nat)
    ensures exists r :: Residue(Polynomial(units), r) && magnitude == Abs(r)
    ensures magnitude <= HALF
  {
    var hash: Int32 := 0;
    for i := 0 to |units|
      invariant hash == Wrap(Polynomial(units[..i]))
    {
      assert units[..i + 1][..i] == units[..i];
      WrapOnce(Polynomial(units[..i]), units[i]);
      hash := Wrap(hash * 31 + units[i]);
    }
    assert units[..|units|] == units;
    WrapResidue(Polynomial(units), hash);
    var wide: int := hash;
    if wide < 0 {
      wide := -wide;
    }
    magnitude := wide;
  }

  function HashOf(units: seq<Unit>): nat {
    Abs(Wrap(Polynomial(units)))
  }

  /******* Base 36 *******/

  function Digit(d: nat): Unit
    requires d < 36
  {
    if d < 10 then '0' as int + d else 'a' as int + d - 10
  }

  function Base36(n: nat): seq<Unit> {
    if n < 36 then [Digit(n)] else Base36(n / 36) + [Digit(n % 36)]
  }

  function DigitValue(u: Unit): int {
    if u <= '9' as int then u - '0' as int else u - 'a' as int + 10
  }

  function Value36(digits: seq<Unit>): int {
    if digits == [] then 0 else Value36(digits[..|digits| - 1]) * 36 + DigitValue(digits[|digits| - 1])
  }

  lemma {:induction false} Base36Reads(n: nat)
    ensures Value36(Base36(n)) == n
    ensures forall i :: 0 <= i < |Base36(n)| ==> Alphanumeric(Base36(n)[i])
    ensures Base36(n) != []
  {
    if n < 36 {
      assert [Digit(n)][..0] == [];
    } else {
      Base36Reads(n / 36);
      assert Base36(n)[..|Base36(n)| - 1] == Base36(n / 36);
    }
  }

  function Power36(k: nat): nat { if k == 0 then 1 else 36 * Power36(k - 1) }

  lemma {:induction false} Base36Length(n: nat, k: nat)
    requires k > 0 && n < Power36(k)
    ensures |Base36(n)| <= k
  {
    if n >= 36 { Base36Length(n / 36, k - 1); }
  }

  /** Every magnitude a 32-bit hash can have takes at most six digits. */
  lemma SixDigits(n: nat)
    requires n <= HALF
    ensures 1 <= |Base36(n)| <= 6
  {
    assert Power36(6) == 36 * 36 * 36 * 36 * 36 * 36 by {
      assert Power36(1) == 36 && Power36(2) == 36 * 36 && Power36(3) == 36 * 36 * 36;
      assert Power36(4) == 36 * 36 * 36 * 36 && Power36(5) == 36 * 36 * 36 * 36 * 36;
    }
    Base36Length(n, 6);
    Base36Reads(n);
  }

  /******* The name *******/

  function Name(path: seq<Rune>): seq<Unit> {
    var units := Encode(path);
    if units == [] then [DASH]
    else if |units| <= MAX_UNITS then Sanitized(units)
    else Sanitized(units)[..MAX_UNITS] + [DASH] + Base36(HashOf(units))
  }

  method SanitizeInto(units: seq<Unit>, sanitized: array<Unit>)
    requires sanitized.Length == |units|
    modifies sanitized
    ensures sanitized[..] == Sanitized(units)
  {
    for i := 0 to |units|
      invariant forall k :: 0 <= k < i ==> sanitized[k] == Clean(units[k])
    {
      if Alphanumeric(units[i]) {
        sanitized[i] := units[i];
      } else {
        sanitized[i] := DASH;
      }
    }
  }

  method ProjectDirName(path: seq<Rune>) returns (name: seq<Unit>)
    ensures name == Name(path)
  {
    var units := Encode(path);
    var sanitized := new Unit[|units|];
    SanitizeInto(units, sanitized);
    if sanitized.Length == 0 {
      return [DASH];
    }
    if sanitized.Length <= MAX_UNITS {
      return sanitized[..];
    }
    var magnitude := Magnitude(units);
    MagnitudeIsHash(units, magnitude);
    name := sanitized[..MAX_UNITS] + [DASH] + Base36(magnitude);
    assert sanitized[..MAX_UNITS] == sanitized[..][..MAX_UNITS];
  }

  lemma MagnitudeIsHash(units: seq<Unit>, magnitude: nat)
    requires exists r :: Residue(Polynomial(units), r) && magnitude == Abs(r)
    ensures magnitude == HashOf(units)
  {
    var r :| Residue(Polynomial(units), r) && magnitude == Abs(r);
    WrapResidue(Polynomial(units), r);
  }

  /** Only ASCII letters, digits and dashes; one unit per code unit up to 200, else 201 and one to six digits. */
  lemma NameShape(path: seq<Rune>)
    ensures forall i :: 0 <= i < |Name(path)| ==> NameUnit(Name(path)[i])
    ensures |Encode(path)| == 0 ==> |Name(path)| == 1
    ensures 0 < |Encode(path)| <= MAX_UNITS ==> |Name(path)| == |Encode(path)|
    ensures |Encode(path)| > MAX_UNITS ==> MAX_UNITS + 2 <= |Name(path)| <= MAX_UNITS + 7
    ensures forall i :: 0 <= i < |Encode(path)| && i < MAX_UNITS ==> Name(path)[i] == Clean(Encode(path)[i])
  {
    var units := Encode(path);
    WrapResidue(Polynomial(units), Wrap(Polynomial(units)));
    SixDigits(HashOf(units));
    Base36Reads(HashOf(units));
  }

  /** The scalar value a surrogate pair stands for. */
  function Paired(high: int, low: int): int {
    0x1_0000 + (high - 0xD800) * 0x400 + (low - 0xDC00)
  }

  /** A scalar value outside the basic plane takes a high and a low surrogate that read back as it; any other takes itself,
      and what is no scalar value takes the replacement character. */
  lemma RunesEncode(r: Rune)
    ensures var u := EncodeRune(r);
            if 0x1_0000 <= r <= 0x10_FFFF
            then |u| == 2 && 0xD800 <= u[0] <= 0xDBFF && 0xDC00 <= u[1] <= 0xDFFF
                 && Paired(u[0], u[1]) == r
            else |u| == 1 && u[0] == if 0 <= r <= 0xD7FF || 0xE000 <= r <= 0xFFFF then r else 0xFFFD
  {
  }

  /** A path is encoded rune by rune, in order. */
  lemma {:induction false} EncodesEach(p: seq<Rune>, r: Rune)
    ensures Encode(p + [r]) == Encode(p) + EncodeRune(r)
    decreases |p|
  {
    if p == [] {
      assert p + [r] == [r] && [r][1..] == [];
    } else {
      var rest := p[1..] + [r];
      EncodesEach(p[1..], r);
      assert (p + [r])[1..] == rest && (p + [r])[0] == p[0];
      Joins(EncodeRune(p[0]), Encode(p[1..]), EncodeRune(r));
    }
  }

  lemma Joins(a: seq<Unit>, b: seq<Unit>, c: seq<Unit>)
    ensures a + (b + c) == (a + b) + c
  {
  }

  /** The hash is the base-31 reading of the units, first unit highest. */
  lemma HashIsBase31(units: seq<Unit>, u: Unit)
    ensures Polynomial([]) == 0 && Polynomial(units + [u]) == 31 * Polynomial(units) + u
  {
    assert (units + [u])[..|units|] == units;
  }

  /** ASCII letters and digits of the path stand in its name, every other unit is a dash; past 200 units comes one more dash,
      and then the hash. */
  lemma NameKeepsLetters(path: seq<Rune>)
    ensures var units, name := Encode(path), Name(path);
            && (forall i :: 0 <= i < |units| && i < 200 ==>
                  name[i] == if 0x30 <= units[i] <= 0x39 || 0x41 <= units[i] <= 0x5A || 0x61 <= units[i] <= 0x7A then units[i] else 0x2D)
            && (units == [] ==> name == [0x2D])
            && (0 < |units| <= 200 ==> |name| == |units|)
            && (|units| > 200 ==> |name| > 201 && name[200] == 0x2D)
  {
    NameShape(path);
  }

  /** The hash is the absolute value of the signed 32-bit residue of the base-31 reading. */
  lemma HashIsResidue(units: seq<Unit>) returns (r: int)
    ensures -0x8000_0000 <= r < 0x8000_0000 && (Polynomial(units) - r) % 0x1_0000_0000 == 0
    ensures HashOf(units) == if r < 0 then -r else r
  {
    r := Wrap(Polynomial(units));
    WrapResidue(Polynomial(units), r);
  }

  lemma LongNameEnds(path: seq<Rune>)
    requires |Encode(path)| > 200
    ensures |Name(path)| > 201 && Name(path)[201..] == Base36(HashOf(Encode(path)))
  {
    Base36Reads(HashOf(Encode(path)));
    assert |Sanitized(Encode(path))[..MAX_UNITS] + [DASH]| == 201;
  }

  predicate SmallDigit(u: Unit) {
    0x30 <= u <= 0x39 || 0x61 <= u <= 0x7A
  }

  lemma {:induction false} DigitsAre(n: nat)
    ensures forall i :: 0 <= i < |Base36(n)| ==> SmallDigit(Base36(n)[i])
  {
    if n >= 36 { DigitsAre(n / 36); }
  }

  /** The end of a long name, digits and small letters, reads in base 36 as the path's hash. */
  lemma LongNameReads(path: seq<Rune>)
    requires |Encode(path)| > 200
    ensures |Name(path)| > 201 && Value36(Name(path)[201..]) == HashOf(Encode(path))
    ensures forall i :: 0 <= i < |Name(path)[201..]| ==> SmallDigit(Name(path)[201..][i])
  {
    LongNameEnds(path);
    Base36Reads(HashOf(Encode(path)));
    DigitsAre(HashOf(Encode(path)));
  }

  /** A name read as a path is its own encoding. */
  lemma {:induction false} AsciiEncodes(units: seq<Unit>)
    requires forall i :: 0 <= i < |units| ==> NameUnit(units[i])
    ensures Encode(units) == units
    decreases |units|
  {
    if units != [] {
      AsciiEncodes(units[1..]);
      assert units == [units[0]] + units[1..];
    }
  }

  /** Naming a name changes nothing, for paths of at most 200 code units. */
  lemma NameIdempotent(path: seq<Rune>)
    requires |Encode(path)| <= MAX_UNITS
    ensures Name(Name(path)) == Name(path)
  {
    NameShape(path);
    AsciiEncodes(Name(path));
    assert Sanitized(Name(path)) == Name(path);
  }

  /** Two long paths share a directory exactly when their first 200 units clean to the same and their hashes agree. */
  lemma LongNamesCollide(p: seq<Rune>, q: seq<Rune>)
    requires |Encode(p)| > MAX_UNITS && |Encode(q)| > MAX_UNITS
    ensures Name(p) == Name(q) <==>
            Sanitized(Encode(p))[..MAX_UNITS] == Sanitized(Encode(q))[..MAX_UNITS] && HashOf(Encode(p)) == HashOf(Encode(q))
  {
    Base36Reads(HashOf(Encode(p)));
    Base36Reads(HashOf(Encode(q)));
    if Name(p) == Name(q) {
      assert Name(p)[..MAX_UNITS] == Sanitized(Encode(p))[..MAX_UNITS];
      assert Name(q)[..MAX_UNITS] == Sanitized(Encode(q))[..MAX_UNITS];
      assert Name(p)[MAX_UNITS + 1..] == Base36(HashOf(Encode(p)));
      assert Name(q)[MAX_UNITS + 1..] == Base36(HashOf(Encode(q)));
    }
  }

  /** A longer path's name is renamed, unless its hash happens to be the path's own. */
  lemma LongNameRenamed(path: seq<Rune>)
    requires |Encode(path)| > MAX_UNITS
    ensures Name(Name(path)) == Name(path) <==> HashOf(Name(path)) == HashOf(Encode(path))
  {
    NameShape(path);
    AsciiEncodes(Name(path));
    LongNameCleans(path);
    LongNamesCollide(Name(path), path);
  }

  /** A long name cleans to itself, and so begins as its path does. */
  lemma LongNameCleans(path: seq<Rune>)
    requires |Encode(path)| > MAX_UNITS && |Name(path)| > MAX_UNITS
    requires forall i :: 0 <= i < |Name(path)| ==> NameUnit(Name(path)[i])
    ensures Sanitized(Name(path)) == Name(path) && Name(path)[..MAX_UNITS] == Sanitized(Encode(path))[..MAX_UNITS]
  {
  }
}
