// Deterministic random numbers from a seed (src/utils/random.ts): the xmur3 string hash,
// the mulberry32 generator and the calendar-day seed string. JavaScript's 32-bit integer
// operations (Math.imul, |, ^, <<, >>>) are bv32 operations here.

module SeededRandom {
  import opened Draws
  import opened Numerals

  const TwoTo32: int := 0x1_0000_0000

  // ---------------------------------------------------------------------------
  // Strings as JavaScript sees them

  /**
   * The UTF-16 code units of a string: what String.prototype.charCodeAt reads and what
   * String.prototype.length counts. A character outside the Basic Multilingual Plane
   * becomes a surrogate pair.
   */
  function Utf16(s: string): (u: seq<bv16>)
    ensures |u| >= |s|
  {
    if s == [] then []
    else
      var c := s[0] as int;
      (if c < 0x10000 then [c as bv16]
       else [(0xD800 + (c - 0x10000) / 0x400) as bv16, (0xDC00 + (c - 0x10000) % 0x400) as bv16])
      + Utf16(s[1..])
  }

  // ---------------------------------------------------------------------------
  // xmur3

  const Xmur3Basis: bv32 := 1779033703

  /** Starting state: 1779033703 ^ str.length (the length taken modulo 2^32 by ^). */
  function Xmur3Start(len: nat): bv32
  {
    Xmur3Basis ^ ((len % TwoTo32) as bv32)
  }

  /** One character: h = Math.imul(h ^ code, 3432918353); h = (h << 13) | (h >>> 19). */
  function Xmur3Step(h: bv32, unit: bv16): bv32
  {
    var m := (h ^ (unit as bv32)) * 3432918353;
    (m << 13) | (m >> 19)
  }

  /** The state after folding the code units, first to last, into h. */
  function Absorb(h: bv32, units: seq<bv16>): bv32
  {
    if units == [] then h else Xmur3Step(Absorb(h, units[..|units| - 1]), units[|units| - 1])
  }

  /** Folding a concatenation folds the first part and then the second. */
  lemma {:induction false} AbsorbAppend(h: bv32, a: seq<bv16>, b: seq<bv16>)
    ensures Absorb(h, a + b) == Absorb(Absorb(h, a), b)
  {
    if b == [] {
      assert a + b == a;
    } else {
      var b' := b[..|b| - 1];
      assert (a + b)[..|a + b| - 1] == a + b';
      AbsorbAppend(h, a, b');
    }
  }

  lemma Utf16OfAscii(x: char, y: char)
    requires x as int < 128 && y as int < 128
    ensures Utf16([x, y]) == [x as int as bv16, y as int as bv16]
  {
    assert [x, y][1..] == [y];
    assert [y][1..] == [];
    assert Utf16([y]) == [y as int as bv16] + Utf16([]);
  }

  /** One worked example, not a general property of the hash: "ab" and "ba" reach different states. */
  lemma HashDependsOnOrder()
    ensures Xmur3State("ab") != Xmur3State("ba")
  {
    StateOfAb();
    StateOfBa();
  }

  /** xmur3("ab") folds 0x61 and then 0x62 into the starting state for length 2. */
  lemma StateOfAb()
    ensures Xmur3State("ab") == 424046158
  {
    Utf16OfAscii('a', 'b');
    var units: seq<bv16> := [0x61, 0x62];
    assert Utf16("ab") == units;
    assert Xmur3Start(2) == 1779033701;
    assert units[..1] == [0x61] && units[..1][..0] == [];
    assert Absorb(1779033701, units[..1]) == Xmur3Step(1779033701, 0x61) == 258510369;
    assert Absorb(1779033701, units) == Xmur3Step(258510369, 0x62) == 424046158;
  }

  /** xmur3("ba") folds 0x62 and then 0x61 into the same starting state. */
  lemma StateOfBa()
    ensures Xmur3State("ba") == 3520708329
  {
    Utf16OfAscii('b', 'a');
    var units: seq<bv16> := [0x62, 0x61];
    assert Utf16("ba") == units;
    assert Xmur3Start(2) == 1779033701;
    assert units[..1] == [0x62] && units[..1][..0] == [];
    assert Absorb(1779033701, units[..1]) == Xmur3Step(1779033701, 0x62) == 1617361628;
    assert Absorb(1779033701, units) == Xmur3Step(1617361628, 0x61) == 3520708329;
  }

  /** The value one call of the returned closure yields (and stores back into h). */
  function Avalanche(h: bv32): bv32
  {
    var h1 := (h ^ (h >> 16)) * 2246822507;
    var h2 := (h1 ^ (h1 >> 13)) * 3266489909;
    h2 ^ (h2 >> 16)
  }

  /** The state xmur3(str) closes over, before its first call. */
  function Xmur3State(str: string): bv32
  {
    var units := Utf16(str);
    Absorb(Xmur3Start(|units|), units)
  }

  /** The hashing loop of xmur3: one step per code unit, first to last. */
  method AbsorbUnits(start: bv32, units: seq<bv16>) returns (acc: bv32)
    ensures acc == Absorb(start, units)
  {
    acc := start;
    for i := 0 to |units|
      invariant acc == Absorb(start, units[..i])
    {
      assert units[..i + 1][..i] == units[..i];
      acc := Xmur3Step(acc, units[i]);
    }
    assert units[..|units|] == units;
  }

  /** xmur3: hashing runs when the closure is built; each call avalanches the state. */
  class Xmur3 {
    var h: bv32

    constructor (str: string)
      ensures h == Xmur3State(str)
    {
      var units := Utf16(str);
      var acc := AbsorbUnits(Xmur3Start(|units|), units);
      h := acc;
    }

    method Next() returns (r: bv32)
      modifies this
      ensures h == Avalanche(old(h)) && r == h
    {
      h := Avalanche(h);
      r := h;
    }
  }

  // ---------------------------------------------------------------------------
  // mulberry32

  const Increment: bv32 := 0x6d2b79f5

  /** The output bits for a state that has just been advanced. */
  function Mix(state: bv32): bv32
  {
    var t := (state ^ (state >> 15)) * (1 | state);
    var t' := (t + (t ^ (t >> 7)) * (61 | t)) ^ t;
    t' ^ (t' >> 14)
  }

  /** An unsigned 32-bit integer divided by 2^32; exact in a double, and always in [0, 1). */
  function Fraction(x: bv32): (r: real)
    ensures 0.0 <= r < 1.0
    ensures r * 4294967296.0 == (x as int) as real
  {
    (x as int) as real / 4294967296.0
  }

  /** The state after n calls of a generator seeded with seed. */
  function StateAfter(seed: bv32, n: nat): bv32
  {
    if n == 0 then seed else StateAfter(seed, n - 1) + Increment
  }

  /** The whole output sequence of the generator seeded with seed: draw k is call k + 1. */
  function SeededStream(seed: bv32): Stream
  {
    (k: nat) => Fraction(Mix(StateAfter(seed, k + 1)))
  }

  lemma SeededStreamIsUnit(seed: bv32)
    ensures Unit(SeededStream(seed))
  {
    forall k: nat ensures 0.0 <= SeededStream(seed)(k) < 1.0 {
      var x := Mix(StateAfter(seed, k + 1));
      assert SeededStream(seed)(k) == Fraction(x);
    }
  }

  /** mulberry32: the closure's mutable state becomes a field. */
  class Mulberry32 {
    var state: bv32
    ghost var seed: bv32
    ghost var calls: nat

    ghost predicate Valid()
      reads this
    {
      state == StateAfter(seed, calls)
    }

    constructor (seed: bv32)
      ensures Valid() && this.seed == seed && calls == 0 && state == seed
    {
      state := seed;
      this.seed := seed;
      calls := 0;
    }

    method Next() returns (r: real)
      requires Valid()
      modifies this
      ensures Valid() && seed == old(seed) && calls == old(calls) + 1
      ensures state == old(state) + Increment
      ensures r == SeededStream(seed)(old(calls))
    {
      state := state + Increment;
      r := Fraction(Mix(state));
      calls := calls + 1;
    }
  }

  // ---------------------------------------------------------------------------
  // Seeds

  /** A JavaScript number: a finite value, NaN, or an infinity. */
  datatype JsNumber = Finite(x: real) | NaN | Infinity(negative: bool)

  /** createSeededRandom accepts a string or a number. */
  datatype Seed = Text(s: string) | Number(n: JsNumber)

  /** seed >>> 0 for an integral number: the unsigned 32-bit integer congruent to it. */
  function Unsigned32(n: int): (r: nat)
    ensures r < TwoTo32 && (n - r) % TwoTo32 == 0
    ensures 0 <= n < TwoTo32 ==> r == n
  {
    n % TwoTo32
  }

  /** Rounding toward zero, as ToUint32 does before taking the remainder. */
  function Truncate(x: real): (t: int)
    ensures 0.0 <= x ==> 0 <= t && t as real <= x < t as real + 1.0
    ensures x < 0.0 ==> t <= 0 && t as real - 1.0 < x <= t as real
  {
    if x >= 0.0 then x.Floor else -((-x).Floor)
  }

  /**
   * seed >>> 0, the ToUint32 conversion of ECMAScript: NaN and the infinities become 0, a
   * finite number is rounded toward zero and taken modulo 2^32.
   */
  function ToUint32(v: JsNumber): (r: nat)
    ensures r < TwoTo32
    ensures !v.Finite? ==> r == 0
    ensures v.Finite? ==> (Truncate(v.x) - r) % TwoTo32 == 0
  {
    match v
    case Finite(x) => Unsigned32(Truncate(x))
    case _ => 0
  }

  /** On an integral number, ToUint32 is the congruence modulo 2^32; a fraction is dropped first. */
  lemma ToUint32Integral(n: int, f: real)
    requires 0.0 <= f < 1.0
    ensures ToUint32(Finite(n as real)) == Unsigned32(n)
    ensures 0 <= n ==> ToUint32(Finite(n as real + f)) == Unsigned32(n)
    ensures n < 0 ==> ToUint32(Finite(n as real - f)) == Unsigned32(n)
  {
    assert Truncate(n as real) == n;
    if 0 <= n {
      assert Truncate(n as real + f) == n;
    } else {
      assert Truncate(n as real - f) == n;
    }
  }

  /** The 32-bit seed a Seed denotes. */
  function SeedValue(seed: Seed): bv32
  {
    match seed
    case Number(n) => ToUint32(n) as bv32
    case Text(s) => Avalanche(Xmur3State(s))
  }

  /** normalizeSeed: a number goes through >>> 0; a string through one call of xmur3. */
  method NormalizeSeed(seed: Seed) returns (r: bv32)
    ensures r == SeedValue(seed)
  {
    if seed.Number? {
      r := ToUint32(seed.n) as bv32;
    } else {
      var hash := new Xmur3(seed.s);
      r := hash.Next();
    }
  }

  method CreateSeededRandom(seed: Seed) returns (g: Mulberry32)
    ensures fresh(g) && g.Valid() && g.calls == 0 && g.seed == SeedValue(seed)
  {
    var s := NormalizeSeed(seed);
    g := new Mulberry32(s);
  }

  // ---------------------------------------------------------------------------
  // getDailySeed

  /** String.prototype.padStart(2, '0'). */
  function PadStart2(s: string): string
  {
    if |s| >= 2 then s else if |s| == 1 then "0" + s else "00"
  }

  /**
   * getDailySeed for the calendar day given by the year, the zero-based month (Date's
   * getMonth) and the day of the month; the clock is not read.
   */
  function GetDailySeed(year: int, monthIndex: nat, day: nat, salt: string): string
  {
    var date := DecimalString(year) + "-" + PadStart2(NatDigits(monthIndex + 1)) + "-"
                + PadStart2(NatDigits(day));
    if salt != "" then date + ":" + salt else date
  }

  /** A one- or two-digit number padded to two digits still reads back as the number. */
  lemma PadStart2Digits(n: nat)
    requires n < 100
    ensures var p := PadStart2(NatDigits(n));
      |p| == 2 && IsDigit(p[0]) && IsDigit(p[1]) && DigitsValue(p) == n
  {
    NatDigitsRoundTrip(n);
    var p := PadStart2(NatDigits(n));
    if n < 10 {
      assert p[..1] == "0";
      assert p[..1][..0] == [];
    } else {
      assert p == NatDigits(n);
    }
  }

  /**
   * The daily seed is YYYY-MM-DD, month and day zero-padded to two digits, followed by
   * ":" and the salt exactly when the salt is not empty.
   */
  lemma {:induction false} DailySeedLayout(year: int, monthIndex: nat, day: nat, salt: string)
    requires monthIndex < 12 && 1 <= day <= 31
    ensures var r := GetDailySeed(year, monthIndex, day, salt);
      var y := DecimalString(year);
      && |r| == |y| + 6 + (if salt == "" then 0 else 1 + |salt|)
      && r[..|y|] == y && r[|y|] == '-' && r[|y| + 3] == '-'
      && (forall k :: |y| + 1 <= k < |y| + 3 ==> IsDigit(r[k]))
      && (forall k :: |y| + 4 <= k < |y| + 6 ==> IsDigit(r[k]))
      && DigitsValue(r[|y| + 1..|y| + 3]) == monthIndex + 1
      && DigitsValue(r[|y| + 4..|y| + 6]) == day
      && (salt != "" <==> |r| > |y| + 6)
      && (salt != "" ==> r[|y| + 6] == ':' && r[|y| + 7..] == salt)
  {
    var y := DecimalString(year);
    var mm := PadStart2(NatDigits(monthIndex + 1));
    var dd := PadStart2(NatDigits(day));
    PadStart2Digits(monthIndex + 1);
    PadStart2Digits(day);
    var date := y + "-" + mm + "-" + dd;
    DateFields(y, mm, dd);
    SaltSuffix(date, salt);
    var r := GetDailySeed(year, monthIndex, day, salt);
    assert r[..|date|] == date;
    assert r[|y| + 1..|y| + 3] == date[|y| + 1..|y| + 3];
    assert r[|y| + 4..|y| + 6] == date[|y| + 4..|y| + 6];
  }

  lemma DateFields(y: string, mm: string, dd: string)
    requires |mm| == 2 && |dd| == 2
    ensures var d := y + "-" + mm + "-" + dd;
      && |d| == |y| + 6 && d[..|y|] == y && d[|y|] == '-' && d[|y| + 3] == '-'
      && d[|y| + 1..|y| + 3] == mm && d[|y| + 4..|y| + 6] == dd
  {
  }

  lemma SaltSuffix(date: string, salt: string)
    ensures var r := if salt != "" then date + ":" + salt else date;
      && r[..|date|] == date
      && (salt == "" ==> r == date)
      && (salt != "" ==> |r| == |date| + 1 + |salt| && r[|date|] == ':' && r[|date| + 1..] == salt)
  {
  }
}
