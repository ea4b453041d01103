/**
 The synthetic phone numbers and VINs of the bundle generator, and exactly when they repeat.
 */
module SynthIds {
  import opened Decimals

  const WORD: nat := 0x1_0000_0000

  /** `ch.charCodeAt(0)`: the first UTF-16 code unit. */
  function CodeUnit(c: char): nat {
    var p := c as int;
    if p < 0x1_0000 then p else 0xD800 + (p - 0x1_0000) / 0x400
  }

  /** The rolling hash of a stem, kept to 32 unsigned bits at every step. */
  function Hash(h: nat, stem: string): nat
    decreases |stem|
  {
    if stem == "" then h else Hash((h * 31 + CodeUnit(stem[0])) % WORD, stem[1..])
  }

  /** `h >> 8` on the signed reading of a 32-bit pattern: the sign is kept. */
  function SignedShift8(h: nat): int
    requires h < WORD
  {
    (if h < WORD / 2 then h else h - WORD) / 0x100
  }

  /** The remainder operator of JavaScript: it has the sign of its left operand. */
  function Remainder(a: int, m: nat): int
    requires m > 0
  {
    if a >= 0 then a % m else -((-a) % m)
  }

  /** What the two operators do: the shift rounds down on the signed reading, and the remainder is smaller than the
      divisor, has the sign of the left operand, and differs from it by a multiple. */
  lemma ShiftAndRemainder(h: nat, a: int, m: nat)
    requires h < 0x1_0000_0000 && m > 0
    ensures var signed: int := if h < 0x8000_0000 then h else h - 0x1_0000_0000;
      0x100 * SignedShift8(h) <= signed < 0x100 * (SignedShift8(h) + 1)
    ensures var r := Remainder(a, m);
      (a >= 0 ==> 0 <= r < m) && (a <= 0 ==> -(m as int) < r <= 0) && exists q: int :: a == q * m + r
  {
    var r := Remainder(a, m);
    if a >= 0 {
      assert a == (a / m) * m + r;
    } else {
      var q := -((-a) / m);
      assert -a == ((-a) / m) * m + (-a) % m;
      assert a == q * m + r;
    }
  }

  lemma {:induction false} HashBound(h: nat, stem: string)
    requires h < WORD
    ensures Hash(h, stem) < WORD
    decreases |stem|
  {
    if stem != "" { HashBound((h * 31 + CodeUnit(stem[0])) % WORD, stem[1..]); }
  }

  function StemHash(idPrefix: string, kind: string): (h: nat)
    ensures h < WORD
  {
    HashBound(0, idPrefix + "-" + kind);
    Hash(0, idPrefix + "-" + kind)
  }

  function Phone(idPrefix: string, kind: string, i: nat): string {
    var h := StemHash(idPrefix, kind);
    var tail := PadStart(Decimal((h + i) % 9000 + 1000), 4);
    var mid := PadStart(Signed(Remainder(SignedShift8(h), 900) + 100), 3);
    "(310) " + mid + "-" + tail
  }

  const VIN_PREFIX: string := "1HGBH41JXMN"

  function Vin(idPrefix: string, kind: string, i: nat): string {
    VIN_PREFIX + PadStart(Decimal(StemHash(idPrefix, kind) % 1000), 3) + PadStart(Decimal(i + 1), 3)
  }

  lemma {:induction false} HashAppend(h: nat, s: string, c: char)
    ensures Hash(h, s + [c]) == (Hash(h, s) * 31 + CodeUnit(c)) % WORD
    decreases |s|
  {
    if s == "" {
      assert s + [c] == [c] && [c][1..] == "";
    } else {
      assert (s + [c])[1..] == s[1..] + [c];
      HashAppend((h * 31 + CodeUnit(s[0])) % WORD, s[1..], c);
    }
  }

  method ComputeHash(stem: string) returns (h: nat)
    ensures h == Hash(0, stem)
  {
    h := 0;
    for k := 0 to |stem|
      invariant h == Hash(0, stem[..k])
    {
      h := (h * 31 + CodeUnit(stem[k])) % WORD;
      HashAppend(0, stem[..k], stem[k]);
      assert stem[..k + 1] == stem[..k] + [stem[k]];
    }
    assert stem[..|stem|] == stem;
  }

  method SynthPhone(idPrefix: string, kind: string, i: nat) returns (phone: string)
    ensures phone == Phone(idPrefix, kind, i)
  {
    hide Hash, PadStart, Decimal, Signed, SignedShift8, Remainder;
    var h := ComputeHash(idPrefix + "-" + kind);
    HashBound(0, idPrefix + "-" + kind);
    var tail := PadStart(Decimal((h + i) % 9000 + 1000), 4);
    var mid := PadStart(Signed(Remainder(SignedShift8(h), 900) + 100), 3);
    phone := "(310) " + mid + "-" + tail;
  }

  method SynthVin(idPrefix: string, kind: string, i: nat) returns (vin: string)
    ensures vin == Vin(idPrefix, kind, i)
  {
    var h := ComputeHash(idPrefix + "-" + kind);
    vin := VIN_PREFIX + PadStart(Decimal(h % 1000), 3) + PadStart(Decimal(i + 1), 3);
  }

  lemma Grows(k: int, m: nat)
    requires k >= 1
    ensures k * m >= m
  {
  }

  lemma SmallMultiple(k: int, m: nat)
    requires 0 < m && -(m as int) < k * m < m
    ensures k == 0
  {
    if k > 0 {
      Grows(k, m);
      assert false;
    }
    if k < 0 {
      Grows(-k, m);
      assert false;
    }
  }

  lemma SameResidue(a: nat, b: nat, h: nat, m: nat)
    requires 0 < m
    ensures (h + a) % m == (h + b) % m <==> (a - b) % m == 0
  {
    var p, q, d := (h + a) / m, (h + b) / m, (a - b) / m;
    var r, s, t := (h + a) % m, (h + b) % m, (a - b) % m;
    assert (p - q - d) * m == t - (r - s);
    if r == s || t == 0 { SmallMultiple(p - q - d, m); }
  }

  function PhoneStart(idPrefix: string, kind: string): string {
    "(310) " + PadStart(Signed(Remainder(SignedShift8(StemHash(idPrefix, kind)), 900) + 100), 3) + "-"
  }

  /** Two rows of one kind share a phone number exactly when their indices differ by a multiple of
      9000; so any 9000 consecutive rows have distinct numbers, and the next one repeats the first. */
  lemma PhonesRepeat(idPrefix: string, kind: string, i: nat, j: nat)
    ensures Phone(idPrefix, kind, i) == Phone(idPrefix, kind, j) <==> (i - j) % 9000 == 0
  {
    hide PadStart, Decimal, Signed, SignedShift8, Remainder, StemHash;
    var h, before := StemHash(idPrefix, kind), PhoneStart(idPrefix, kind);
    var a, b := (h + i) % 9000 + 1000, (h + j) % 9000 + 1000;
    assert Phone(idPrefix, kind, i) == before + PadStart(Decimal(a), 4) + "";
    assert Phone(idPrefix, kind, j) == before + PadStart(Decimal(b), 4) + "";
    SameResidue(i, j, h, 9000);
    if Phone(idPrefix, kind, i) == Phone(idPrefix, kind, j) {
      AroundInjective(before, PadStart(Decimal(a), 4), PadStart(Decimal(b), 4), "");
      PaddedInjective(a, b, 4);
    }
  }

  /** VINs of one kind never repeat, and have the 17 characters of a VIN exactly for the first 999. */
  lemma VinsDistinct(idPrefix: string, kind: string, i: nat, j: nat)
    ensures Vin(idPrefix, kind, i) == Vin(idPrefix, kind, j) <==> i == j
    ensures |Vin(idPrefix, kind, i)| == 17 <==> i <= 998
  {
    var stem := StemHash(idPrefix, kind) % 1000;
    DecimalLength(stem);
    DecimalLength(i + 1);
    if Vin(idPrefix, kind, i) == Vin(idPrefix, kind, j) {
      var before := VIN_PREFIX + PadStart(Decimal(stem), 3);
      var a, b := PadStart(Decimal(i + 1), 3), PadStart(Decimal(j + 1), 3);
      assert before + a + "" == before + b + "";
      AroundInjective(before, a, b, "");
      PaddedInjective(i + 1, j + 1, 3);
    }
  }

  predicate AllDigits(s: string) {
    forall k :: 0 <= k < |s| ==> '0' <= s[k] <= '9'
  }

  /** The printed form of a ten-digit number: (310) 555-0100. */
  predicate WellFormed(phone: string) {
    && |phone| == 14
    && phone[..6] == "(310) " && phone[9] == '-'
    && AllDigits(phone[6..9]) && AllDigits(phone[10..])
  }

  lemma {:induction false} DecimalDigits(n: nat)
    ensures AllDigits(Decimal(n))
  {
    if n >= 10 { DecimalDigits(n / 10); }
  }

  lemma {:induction false} RepeatDigits(n: nat)
    ensures AllDigits(Repeat('0', n))
  {
    if n > 0 { RepeatDigits(n - 1); }
  }

  lemma PaddedDigits(n: nat, width: nat)
    ensures AllDigits(PadStart(Decimal(n), width))
  {
    DecimalDigits(n);
    if |Decimal(n)| < width { RepeatDigits(width - |Decimal(n)|); }
  }

  /** Three digits come out exactly for the numbers that have at most three. */
  lemma MiddleShape(v: int)
    requires v < 1000
    ensures |PadStart(Signed(v), 3)| == 3 && AllDigits(PadStart(Signed(v), 3)) <==> v >= 0
  {
    var s := PadStart(Signed(v), 3);
    if v >= 0 {
      DecimalLength(v);
      PaddedDigits(v, 3);
    } else {
      assert Signed(v)[0] == '-';
      assert s[|s| - |Signed(v)|] == '-';
    }
  }

  /** The signed shift lets the middle group go negative: a number has the shape of a phone number
      exactly when the remainder of the shifted hash is at least -100. */
  lemma PhoneShape(idPrefix: string, kind: string, i: nat)
    ensures WellFormed(Phone(idPrefix, kind, i))
       <==> Remainder(SignedShift8(StemHash(idPrefix, kind)), 900) >= -100
  {
    var h := StemHash(idPrefix, kind);
    var v, a := Remainder(SignedShift8(h), 900) + 100, (h + i) % 9000 + 1000;
    var mid, tail := PadStart(Signed(v), 3), PadStart(Decimal(a), 4);
    var phone := Phone(idPrefix, kind, i);
    MiddleShape(v);
    DecimalLength(a);
    PaddedDigits(a, 4);
    assert phone == "(310) " + mid + "-" + tail;
    if |mid| == 3 { assert phone[6..9] == mid && phone[10..] == tail; }
  }

  lemma HashFirst(h: nat, c: char, rest: string)
    ensures Hash(h, [c] + rest) == Hash((h * 31 + CodeUnit(c)) % WORD, rest)
  {
    assert ([c] + rest)[1..] == rest;
  }

  lemma HashOfCustomersOfA()
    ensures Hash(0, "a" + "-" + "cust") == 2821651519
  {
    hide Hash;
    assert "a" + "-" + "cust" == ['a'] + (['-'] + (['c'] + (['u'] + (['s'] + (['t'] + "")))));
    HashFirst(0, 'a', ['-'] + (['c'] + (['u'] + (['s'] + (['t'] + "")))));
    HashFirst(97, '-', ['c'] + (['u'] + (['s'] + (['t'] + ""))));
    HashFirst(3052, 'c', ['u'] + (['s'] + (['t'] + "")));
    HashFirst(94711, 'u', ['s'] + (['t'] + ""));
    HashFirst(2936158, 's', ['t'] + "");
    HashFirst(91021013, 't', "");
    HashEmpty(2821651519);
  }

  lemma NegativeRemainder()
    ensures Remainder(SignedShift8(2821651519), 900) == -540
  {
    assert SignedShift8(2821651519) == -5755140;
    assert 5755140 == 6394 * 900 + 540;
  }

  lemma HashEmpty(h: nat)
    ensures Hash(h, "") == h
  {
  }

  /** Such stems exist: every customer of a bundle with prefix "a" gets a malformed number. */
  lemma MalformedPhone(i: nat)
    ensures !WellFormed(Phone("a", "cust", i))
  {
    HashOfCustomersOfA();
    NegativeRemainder();
    hide Hash, Phone, WellFormed, SignedShift8, Remainder;
    PhoneShape("a", "cust", i);
  }

  /** The first code unit of a character: itself in the basic plane, and otherwise the high surrogate of its
      block of 1024. */
  lemma CodeUnitIs(c: char)
    ensures c < '\U{10000}' ==> CodeUnit(c) == c as int
    ensures c >= '\U{10000}' ==>
      0xD800 <= CodeUnit(c) < 0xDC00
      && 0 <= c as int - (0x1_0000 + 0x400 * (CodeUnit(c) - 0xD800)) < 0x400
  {
  }

  lemma HashOfCustomers()
    ensures StemHash("synth", "cust") == 546001476
  {
    hide Hash;
    assert "synth" + "-" + "cust" == "synth-cust";
    HashNext(0, 's', "synth-cust", "ynth-cust");
    HashNext(115, 'y', "ynth-cust", "nth-cust");
    HashNext(3686, 'n', "nth-cust", "th-cust");
    HashNext(114376, 't', "th-cust", "h-cust");
    HashNext(3545772, 'h', "h-cust", "-cust");
    HashNext(109919036, '-', "-cust", "cust");
    HashNext(3407490161, 'c', "cust", "ust");
    HashNext(2552979986, 'u', "ust", "st");
    HashNext(1832968355, 's', "st", "t");
    HashNext(987444272, 't', "t", "");
    HashEmpty(546001476);
  }

  lemma HashOfDrivers()
    ensures StemHash("synth", "drv") == 987445143
  {
    hide Hash;
    assert "synth" + "-" + "drv" == "synth-drv";
    HashNext(0, 's', "synth-drv", "ynth-drv");
    HashNext(115, 'y', "ynth-drv", "nth-drv");
    HashNext(3686, 'n', "nth-drv", "th-drv");
    HashNext(114376, 't', "th-drv", "h-drv");
    HashNext(3545772, 'h', "h-drv", "-drv");
    HashNext(109919036, '-', "-drv", "drv");
    HashNext(3407490161, 'd', "drv", "rv");
    HashNext(2552979987, 'r', "rv", "v");
    HashNext(1832968383, 'v', "v", "");
    HashEmpty(987445143);
  }

  lemma HashOfVehicles()
    ensures StemHash("synth", "veh") == 987462024
  {
    hide Hash;
    assert "synth" + "-" + "veh" == "synth-veh";
    HashNext(0, 's', "synth-veh", "ynth-veh");
    HashNext(115, 'y', "ynth-veh", "nth-veh");
    HashNext(3686, 'n', "nth-veh", "th-veh");
    HashNext(114376, 't', "th-veh", "h-veh");
    HashNext(3545772, 'h', "h-veh", "-veh");
    HashNext(109919036, '-', "-veh", "veh");
    HashNext(3407490161, 'v', "veh", "eh");
    HashNext(2552980005, 'e', "eh", "h");
    HashNext(1832968928, 'h', "h", "");
    HashEmpty(987462024);
  }

  lemma HashOfTrucks()
    ensures StemHash("synth", "tr") == 1832968879
  {
    hide Hash;
    assert "synth" + "-" + "tr" == "synth-tr";
    HashNext(0, 's', "synth-tr", "ynth-tr");
    HashNext(115, 'y', "ynth-tr", "nth-tr");
    HashNext(3686, 'n', "nth-tr", "th-tr");
    HashNext(114376, 't', "th-tr", "h-tr");
    HashNext(3545772, 'h', "h-tr", "-tr");
    HashNext(109919036, '-', "-tr", "tr");
    HashNext(3407490161, 't', "tr", "r");
    HashNext(2552980003, 'r', "r", "");
    HashEmpty(1832968879);
  }

  lemma HashNext(h: nat, c: char, s: string, rest: string)
    requires s == [c] + rest
    ensures Hash(h, s) == Hash((h * 31 + CodeUnit(c)) % WORD, rest)
  {
    HashFirst(h, c, rest);
  }

  /** The digits of a phone number: its last four are 1000 and the remainder modulo 9000 of hash and index. */
  lemma PhoneDigits(idPrefix: string, kind: string, i: nat)
    ensures var phone, h := Phone(idPrefix, kind, i), StemHash(idPrefix, kind);
      && |phone| >= 11 && phone[..6] == "(310) " && phone[|phone| - 5] == '-'
      && Parse(phone[|phone| - 4..]) == 1000 + (h + i) % 9000
      && (Remainder(SignedShift8(h), 900) >= -100 ==>
            Parse(phone[6..|phone| - 5]) == 100 + Remainder(SignedShift8(h), 900))
  {
    hide PadStart, Decimal, SignedShift8, Remainder, StemHash, Parse;
    var h := StemHash(idPrefix, kind);
    var a, v := (h + i) % 9000 + 1000, Remainder(SignedShift8(h), 900) + 100;
    var tail, mid := PadStart(Decimal(a), 4), PadStart(Signed(v), 3);
    DecimalLength(a);
    ParsePadStart(a, 4);
    if v >= 0 { ParsePadStart(v, 3); }
    var phone := Phone(idPrefix, kind, i);
    assert phone == "(310) " + mid + "-" + tail;
    assert phone[6..|phone| - 5] == mid && phone[|phone| - 4..] == tail;
  }

  /** VINs of any kinds and prefixes agree exactly when their indices do and their hashes modulo 1000. */
  lemma VinsAgree(p: string, kind: string, i: nat, q: string, other: string, j: nat)
    ensures Vin(p, kind, i) == Vin(q, other, j) <==> i == j && StemHash(p, kind) % 1000 == StemHash(q, other) % 1000
    ensures |Vin(p, kind, i)| >= 17 && Vin(p, kind, i)[..11] == "1HGBH41JXMN"
    ensures Parse(Vin(p, kind, i)[11..14]) == StemHash(p, kind) % 1000 && Parse(Vin(p, kind, i)[14..]) == i + 1
  {
    hide PadStart, Decimal, StemHash, Parse;
    VinParts(p, kind, i);
    VinParts(q, other, j);
  }

  lemma VinParts(p: string, kind: string, i: nat)
    ensures var vin := Vin(p, kind, i);
      && |vin| >= 17 && vin[..11] == "1HGBH41JXMN"
      && vin[11..14] == PadStart(Decimal(StemHash(p, kind) % 1000), 3) && vin[14..] == PadStart(Decimal(i + 1), 3)
      && Parse(vin[11..14]) == StemHash(p, kind) % 1000 && Parse(vin[14..]) == i + 1
  {
    hide PadStart, Decimal, StemHash, Parse;
    var stem := StemHash(p, kind) % 1000;
    DecimalLength(stem);
    ParsePadStart(stem, 3);
    ParsePadStart(i + 1, 3);
    assert |VIN_PREFIX| == 11 && |PadStart(Decimal(stem), 3)| == 3;
  }

  /** The first numbers of a bundle with the default prefix. */
  lemma FirstNumbers()
    ensures Phone("synth", "cust", 0) == "(310) " + "818" + "-" + "8476"
    ensures Phone("synth", "drv", 0) == "(310) " + "807" + "-" + "2143"
    ensures Vin("synth", "veh", 0) == "1HGBH41JXMN" + "024" + "001"
    ensures Vin("synth", "tr", 0) == "1HGBH41JXMN" + "879" + "001"
  {
    hide StemHash, Phone, Vin, Decimal, PadStart;
    HashOfCustomers();
    HashOfDrivers();
    HashOfVehicles();
    HashOfTrucks();
    FirstDecimals();
    FirstPhone("cust", 546001476, "818", "8476");
    FirstPhone("drv", 987445143, "807", "2143");
    FirstVin("veh", 987462024, "024");
    FirstVin("tr", 1832968879, "879");
  }

  lemma FirstDecimals()
    ensures Decimal(818) == "818" && Decimal(8476) == "8476" && Decimal(807) == "807" && Decimal(2143) == "2143"
    ensures PadStart(Decimal(24), 3) == "024" && PadStart(Decimal(879), 3) == "879"
  {
    assert Decimal(24) == "24" && Repeat('0', 1) == "0" && Decimal(879) == "879";
  }

  lemma FirstPhone(kind: string, h: nat, mid: string, tail: string)
    requires StemHash("synth", kind) == h < 0x8000_0000
    requires Decimal(h / 0x100 % 900 + 100) == mid && |mid| == 3 && Decimal(h % 9000 + 1000) == tail && |tail| == 4
    ensures Phone("synth", kind, 0) == "(310) " + mid + "-" + tail
  {
    hide StemHash, Decimal;
  }

  lemma FirstVin(kind: string, h: nat, stem: string)
    requires StemHash("synth", kind) == h && PadStart(Decimal(h % 1000), 3) == stem
    ensures Vin("synth", kind, 0) == "1HGBH41JXMN" + stem + "001"
  {
    assert Decimal(1) == "1" && Repeat('0', 2) == "00";
    hide StemHash, Decimal;
    assert PadStart("1", 3) == "001";
  }
}
