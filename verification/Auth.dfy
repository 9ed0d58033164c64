/** The authentication proof: its length-prefixed payload, and the clock tolerance computed in 64-bit arithmetic. */
module Auth {
  import opened Basics

  type byte = x: int | 0 <= x < 256
  type Bytes = seq<byte>  // a Go string or byte slice

  /** What a proof attests, next to the nonce. */
  datatype Claims = Claims(role: Bytes, tenant: Bytes, source: Bytes, instance: Bytes, timestamp: int64)

  // ---------------------------------------------------------------- big-endian integers

  function Pow256(n: nat): (p: nat)
    ensures p >= 1
  {
    if n == 0 then 1 else 256 * Pow256(n - 1)
  }

  /** The n low-order bytes of v, most significant first. */
  function BigEndian(v: nat, n: nat): (b: Bytes)
    ensures |b| == n
  {
    if n == 0 then [] else BigEndian(v / 256, n - 1) + [v % 256]
  }

  function Number(b: Bytes): nat {
    if b == [] then 0 else 256 * Number(b[..|b| - 1]) + b[|b| - 1]
  }

  lemma ProductAtLeast(d: nat, t: nat)
    requires t >= 1
    ensures d * t >= d
  {}

  lemma Remainder(v: nat, d: nat, k: nat, r: nat)
    requires v == d * k + r && r < d
    ensures v % d == r
  {
    var q := v / d;
    assert d * (q - k) == r - v % d;
    if q < k {
      ProductAtLeast(d, k - q);
      assert false;
    } else if q > k {
      ProductAtLeast(d, q - k);
      assert false;
    }
  }

  lemma LastDigit(v: nat, p: nat)
    requires p >= 1
    ensures v % (256 * p) == 256 * ((v / 256) % p) + v % 256
  {
    var q := v / 256;
    var k, m := q / p, q % p;
    assert q == p * k + m;
    assert v == 256 * (p * k) + 256 * m + v % 256;
    assert 256 * (p * k) == (256 * p) * k;
    assert 256 * m + v % 256 < 256 * p;
    Remainder(v, 256 * p, k, 256 * m + v % 256);
  }

  /** Reading back keeps exactly what n bytes can hold. */
  lemma {:induction false} NumberOfBigEndian(v: nat, n: nat)
    ensures Number(BigEndian(v, n)) == v % Pow256(n)
  {
    if n > 0 {
      NumberOfBigEndian(v / 256, n - 1);
      assert BigEndian(v, n)[..n - 1] == BigEndian(v / 256, n - 1);
      LastDigit(v, Pow256(n - 1));
    }
  }

  /** The digits themselves: the i-th byte is the i-th highest of the n low-order ones. */
  lemma {:induction false} DigitAt(v: nat, n: nat, i: nat)
    requires i < n
    ensures BigEndian(v, n)[i] == v / Pow256(n - 1 - i) % 256
  {
    if i == n - 1 {
      assert v / Pow256(0) == v;
    } else {
      DigitAt(v / 256, n - 1, i);
      var p := Pow256(n - 2 - i);
      DivideTwice(v, p);
    }
  }

  lemma DivideTwice(v: nat, p: nat)
    requires p > 0
    ensures v / 256 / p == v / (256 * p)
  {
    var q, r := v / 256, v % 256;
    var k, m := q / p, q % p;
    assert v == 256 * q + r && q == p * k + m;
    assert 256 * q == 256 * (p * k) + 256 * m;
    assert 256 * (p * k) == (256 * p) * k;
    assert 256 * m + r < 256 * p;
    Quotient(v, 256 * p, k, 256 * m + r);
  }

  lemma Quotient(v: nat, d: nat, k: nat, r: nat)
    requires v == d * k + r && r < d
    ensures v / d == k
  {
    Remainder(v, d, k, r);
    var q := v / d;
    assert v == d * q + r;
    assert d * (q - k) == 0;
    if q > k {
      ProductAtLeast(d, q - k);
      assert false;
    } else if q < k {
      ProductAtLeast(d, k - q);
      assert false;
    }
  }

  lemma Powers()
    ensures Pow256(4) == TWO_32 && Pow256(8) == TWO_64
  {
    assert Pow256(4) == 256 * 256 * 256 * 256 * Pow256(0);
    assert Pow256(8) == 256 * 256 * 256 * 256 * Pow256(4);
  }

  // ---------------------------------------------------------------- payload

  /** `uint32(len(value))` truncates. */
  function LengthPrefixed(value: Bytes): Bytes {
    BigEndian(|value| % TWO_32, 4) + value
  }

  /** `uint64(timestampUnix)` is two's complement. */
  function Payload(nonce: Bytes, c: Claims): Bytes {
    nonce + LengthPrefixed(c.role) + LengthPrefixed(c.tenant) + LengthPrefixed(c.source) + LengthPrefixed(c.instance)
    + BigEndian(c.timestamp % TWO_64, 8)
  }

  lemma Peel(v: nat, n: nat, tail: Bytes)
    requires n > 0
    ensures BigEndian(v, n) + tail == BigEndian(v / 256, n - 1) + ([v % 256] + tail)
  {}

  /** PutUint32 and PutUint64 of the standard library. */
  method PutBigEndian(buffer: array<byte>, v: nat)
    modifies buffer
    ensures buffer[..] == BigEndian(v, buffer.Length)
  {
    hide BigEndian;
    var n := buffer.Length;
    var rest := v;
    for i := 0 to n
      invariant BigEndian(v, n) == BigEndian(rest, n - i) + buffer[n - i..]
    {
      Peel(rest, n - i, buffer[n - i..]);
      buffer[n - 1 - i] := rest % 256;
      assert buffer[n - 1 - i..] == [rest % 256] + buffer[n - i..];
      rest := rest / 256;
    }
    assert buffer[0..] == buffer[..];
  }

  method AppendLengthPrefixedString(buffer: Bytes, value: Bytes) returns (r: Bytes)
    ensures r == buffer + LengthPrefixed(value)
  {
    var lengthBuffer := new byte[4];
    PutBigEndian(lengthBuffer, |value| % TWO_32);
    r := buffer + lengthBuffer[..];
    r := r + value;
  }

  method BuildPayload(nonce: Bytes, c: Claims) returns (payload: Bytes)
    ensures payload == Payload(nonce, c)
    ensures |payload| == |nonce| + 4 + |c.role| + 4 + |c.tenant| + 4 + |c.source| + 4 + |c.instance| + 8
  {
    payload := nonce;
    payload := AppendLengthPrefixedString(payload, c.role);
    payload := AppendLengthPrefixedString(payload, c.tenant);
    payload := AppendLengthPrefixedString(payload, c.source);
    payload := AppendLengthPrefixedString(payload, c.instance);
    var timestampBuffer := new byte[8];
    PutBigEndian(timestampBuffer, c.timestamp % TWO_64);
    payload := payload + timestampBuffer[..];
  }

  // ---------------------------------------------------------------- the parser that inverts it

  /** One length-prefixed string off the front, and what follows it. */
  function ParseString(b: Bytes): Option<(Bytes, Bytes)> {
    if |b| < 4 then None
    else
      var n := Number(b[..4]);
      if |b| < 4 + n then None else Some((b[4..4 + n], b[4 + n..]))
  }

  function Signed(v: nat): int {
    if v < TWO_63 then v else v - TWO_64
  }

  function ParseTimestamp(b: Bytes): Option<int64> {
    if |b| == 8 && -TWO_63 <= Signed(Number(b)) < TWO_63 then Some(Signed(Number(b))) else None
  }

  function Parse(b: Bytes, nonceLength: nat): Option<(Bytes, Claims)> {
    if |b| < nonceLength then None
    else
      var role := ParseString(b[nonceLength..]);
      if role == None then None else
      var tenant := ParseString(role.value.1);
      if tenant == None then None else
      var source := ParseString(tenant.value.1);
      if source == None then None else
      var instance := ParseString(source.value.1);
      if instance == None then None else
      var timestamp := ParseTimestamp(instance.value.1);
      if timestamp == None then None else
        Some((b[..nonceLength],
              Claims(role.value.0, tenant.value.0, source.value.0, instance.value.0, timestamp.value)))
  }

  predicate Short(c: Claims) {
    |c.role| < TWO_32 && |c.tenant| < TWO_32 && |c.source| < TWO_32 && |c.instance| < TWO_32
  }

  lemma {:induction false} NumberIsSmall(b: Bytes)
    ensures Number(b) < Pow256(|b|)
  {
    if b != [] {
      NumberIsSmall(b[..|b| - 1]);
    }
  }

  lemma LastBlock(p: Bytes, front: Bytes, block: Bytes)
    requires |front| + |block| <= |p| && p[..|front| + |block|] == front + block
    ensures p[..|front|] == front && p[|front|..|front| + |block|] == block
  {
    assert p[..|front|] == p[..|front| + |block|][..|front|];
    assert p[|front|..|front| + |block|] == p[..|front| + |block|][|front|..];
  }

  lemma ParsesPrefixed(value: Bytes, rest: Bytes)
    requires |value| < TWO_32
    ensures ParseString(LengthPrefixed(value) + rest) == Some((value, rest))
  {
    LengthHolds(value);
    var digits := BigEndian(|value|, 4);
    var front := LengthPrefixed(value);
    assert front == digits + value;
    hide BigEndian, Number, LengthPrefixed;
    var b := front + rest;
    assert b[..|front|] == front && b[|front|..] == rest;
    LastBlock(b, digits, value);
  }

  lemma ParsedStringIsShort(b: Bytes)
    ensures ParseString(b).Some? ==> |ParseString(b).value.0| < TWO_32
  {
    if |b| >= 4 {
      NumberIsSmall(b[..4]);
      Powers();
    }
  }

  lemma ParsesTimestamp(timestamp: int64)
    ensures ParseTimestamp(BigEndian(timestamp % TWO_64, 8)) == Some(timestamp)
  {
    hide BigEndian, Number, Pow256;
    NumberOfBigEndian(timestamp % TWO_64, 8);
    Powers();
  }

  lemma Nested(nonce: Bytes, a: Bytes, b: Bytes, c: Bytes, d: Bytes, e: Bytes)
    ensures nonce + a + b + c + d + e == nonce + (a + (b + (c + (d + e))))
  {}

  lemma ParsesPayload(nonce: Bytes, c: Claims)
    requires Short(c)
    ensures Parse(Payload(nonce, c), |nonce|) == Some((nonce, c))
  {
    var time := BigEndian(c.timestamp % TWO_64, 8);
    var r3 := LengthPrefixed(c.instance) + time;
    var r2 := LengthPrefixed(c.source) + r3;
    var r1 := LengthPrefixed(c.tenant) + r2;
    var r0 := LengthPrefixed(c.role) + r1;
    hide ParseString, LengthPrefixed, BigEndian, ParseTimestamp;
    Nested(nonce, LengthPrefixed(c.role), LengthPrefixed(c.tenant), LengthPrefixed(c.source),
           LengthPrefixed(c.instance), time);
    assert Payload(nonce, c) == nonce + r0;
    assert (nonce + r0)[..|nonce|] == nonce && (nonce + r0)[|nonce|..] == r0;
    hide Payload;
    ParsesPrefixed(c.role, r1);
    ParsesPrefixed(c.tenant, r2);
    ParsesPrefixed(c.source, r3);
    ParsesPrefixed(c.instance, time);
    ParsesTimestamp(c.timestamp);
  }

  lemma ParsedClaimsAreShort(b: Bytes, nonceLength: nat)
    ensures Parse(b, nonceLength).Some? ==> Short(Parse(b, nonceLength).value.1)
  {
    hide ParseString, ParseTimestamp;
    if Parse(b, nonceLength).Some? {
      var role := ParseString(b[nonceLength..]);
      var tenant := ParseString(role.value.1);
      var source := ParseString(tenant.value.1);
      ParsedStringIsShort(b[nonceLength..]);
      ParsedStringIsShort(role.value.1);
      ParsedStringIsShort(tenant.value.1);
      ParsedStringIsShort(source.value.1);
    }
  }

  /**
   Round trip: given the nonce's length, the payload determines the nonce and all claims, exactly if no string is as
   long as 2^32 bytes.
   */
  lemma RoundTrip(nonce: Bytes, c: Claims)
    ensures Parse(Payload(nonce, c), |nonce|) == Some((nonce, c)) <==> Short(c)
  {
    hide Parse, Payload;
    if Short(c) {
      ParsesPayload(nonce, c);
    } else {
      ParsedClaimsAreShort(Payload(nonce, c), |nonce|);
    }
  }

  lemma Blocks(n: Bytes, a: Bytes, b: Bytes, c: Bytes, d: Bytes, t: Bytes)
    ensures var p := n + a + b + c + d + t;
            var i := |n| + |a|;
            var j := i + |b|;
            var k := j + |c|;
            p[..|n|] == n && p[|n|..i] == a && p[i..j] == b && p[j..k] == c && p[k..k + |d|] == d && p[k + |d|..] == t
  {
    var p := n + a + b + c + d + t;
    assert p[..|p|] == p;
    LastBlock(p, n + a + b + c + d, t);
    LastBlock(p, n + a + b + c, d);
    LastBlock(p, n + a + b, c);
    LastBlock(p, n + a, b);
    LastBlock(p, n, a);
  }

  /** A string behind its length, in four bytes. */
  predicate HoldsString(block: Bytes, value: Bytes) {
    |block| == 4 + |value| && Number(block[..4]) == |value| && block[4..] == value
  }

  lemma PrefixedHolds(value: Bytes)
    requires |value| < TWO_32
    ensures HoldsString(LengthPrefixed(value), value)
  {
    LengthHolds(value);
    var block, digits := LengthPrefixed(value), BigEndian(|value|, 4);
    assert block == digits + value;
    hide BigEndian, Number, LengthPrefixed;
    assert block[..4] == digits && block[4..] == value;
  }

  lemma LengthHolds(value: Bytes)
    requires |value| < TWO_32
    ensures |BigEndian(|value|, 4)| == 4 && Number(BigEndian(|value|, 4)) == |value|
  {
    hide BigEndian, Number, Pow256;
    Powers();
    NumberOfBigEndian(|value|, 4);
  }

  /** The strings and the number stand in p in this order, after the nonce. */
  predicate LaidOut(p: Bytes, nonce: Bytes, c: Claims) {
    var a := |nonce| + 4 + |c.role|;
    var b := a + 4 + |c.tenant|;
    var d := b + 4 + |c.source|;
    var e := d + 4 + |c.instance|;
    && |p| == e + 8 && p[..|nonce|] == nonce
    && HoldsString(p[|nonce|..a], c.role) && HoldsString(p[a..b], c.tenant)
    && HoldsString(p[b..d], c.source) && HoldsString(p[d..e], c.instance)
    && Number(p[e..]) == c.timestamp % TWO_64
  }

  lemma LayOut(nonce: Bytes, role: Bytes, tenant: Bytes, source: Bytes, instance: Bytes, time: Bytes, c: Claims)
    requires HoldsString(role, c.role) && HoldsString(tenant, c.tenant)
    requires HoldsString(source, c.source) && HoldsString(instance, c.instance)
    requires |time| == 8 && Number(time) == c.timestamp % TWO_64
    ensures LaidOut(nonce + role + tenant + source + instance + time, nonce, c)
  {
    assert |role| == 4 + |c.role| && |tenant| == 4 + |c.tenant|;
    assert |source| == 4 + |c.source| && |instance| == 4 + |c.instance|;
    Blocks(nonce, role, tenant, source, instance, time);
    hide HoldsString, Number;
  }

  /** Where everything is: nonce, then role, tenant, source and instance behind their lengths, then the timestamp. */
  lemma PayloadLayout(nonce: Bytes, c: Claims)
    requires Short(c)
    ensures LaidOut(Payload(nonce, c), nonce, c)
  {
    TimeHolds(c);
    hide BigEndian, Number, Pow256, LengthPrefixed;
    assert Payload(nonce, c) == nonce + LengthPrefixed(c.role) + LengthPrefixed(c.tenant) + LengthPrefixed(c.source)
                                + LengthPrefixed(c.instance) + BigEndian(c.timestamp % TWO_64, 8);
    hide *;
    PrefixedHolds(c.role);
    PrefixedHolds(c.tenant);
    PrefixedHolds(c.source);
    PrefixedHolds(c.instance);
    LayOut(nonce, LengthPrefixed(c.role), LengthPrefixed(c.tenant), LengthPrefixed(c.source),
           LengthPrefixed(c.instance), BigEndian(c.timestamp % TWO_64, 8), c);
  }

  lemma TimeHolds(c: Claims)
    ensures |BigEndian(c.timestamp % TWO_64, 8)| == 8
    ensures Number(BigEndian(c.timestamp % TWO_64, 8)) == c.timestamp % TWO_64
  {
    hide BigEndian, Number, Pow256;
    Powers();
    NumberOfBigEndian(c.timestamp % TWO_64, 8);
  }

  lemma PayloadInjective(n1: Bytes, c1: Claims, n2: Bytes, c2: Claims)
    requires |n1| == |n2| && Short(c1) && Short(c2)
    ensures Payload(n1, c1) == Payload(n2, c2) <==> n1 == n2 && c1 == c2
  {
    RoundTrip(n1, c1);
    RoundTrip(n2, c2);
  }

  function Zeros(n: nat): Bytes {
    seq(n, _ => 0)
  }

  /**
   Without the bound, buildPayload is ambiguous: 2^32 zero bytes as the role or as the tenant. The server's read limit
   of 1 MiB per frame keeps such strings away from it.
   */
  lemma LongStringsCollide(nonce: Bytes, timestamp: int64)
    ensures var c1 := Claims(Zeros(TWO_32), [], [], [], timestamp);
            var c2 := Claims([], Zeros(TWO_32), [], [], timestamp);
            c1 != c2 && Payload(nonce, c1) == Payload(nonce, c2)
  {
    var z, e := Zeros(TWO_32), BigEndian(0, 4);
    assert |z| == TWO_32;
    assert e == BigEndian(0, 0) + [0] + [0] + [0] + [0] == Zeros(4);
    assert LengthPrefixed(z) == e + z && LengthPrefixed([]) == e + [] == e;
    assert e + z + e == e + e + z;
  }

  // ---------------------------------------------------------------- validation

  /** 64-bit two's complement arithmetic. */
  function Wrap(x: int): (y: int64)
    ensures (y - x) % TWO_64 == 0
  {
    (x + TWO_63) % TWO_64 - TWO_63
  }

  /** The test ValidateProof makes. */
  predicate WithinSkew(now: int64, timestamp: int64, maxSkew: int64) {
    var skew: int := Wrap(now - timestamp);
    var distance: int := if skew < 0 then Wrap(-skew) else skew;
    Wrap(distance * SECOND) <= maxSkew
  }

  function Distance(now: int64, timestamp: int64): nat {
    if now < timestamp then timestamp - now else now - timestamp
  }

  /** The test it is meant to make. */
  predicate Tolerated(now: int64, timestamp: int64, maxSkew: int64) {
    Distance(now, timestamp) * SECOND <= maxSkew
  }

  const SAFE_DISTANCE := 9_223_372_036

  lemma WrapKeeps(x: int)
    requires -TWO_63 <= x < TWO_63
    ensures Wrap(x) == x
  {}

  /** Up to the bound nothing wraps. */
  lemma NearTimestamps(now: int64, timestamp: int64, maxSkew: int64)
    requires Distance(now, timestamp) <= SAFE_DISTANCE
    ensures WithinSkew(now, timestamp, maxSkew) <==> Tolerated(now, timestamp, maxSkew)
  {
    var distance: int := Distance(now, timestamp);
    WrapKeeps(now - timestamp);
    WrapKeeps(timestamp - now);
    WrapKeeps(distance * SECOND);
    hide Wrap;
  }

  /** Beyond it the largest tolerance accepts what is too far away for any. */
  lemma FarTimestamps(now: int64, timestamp: int64)
    requires Distance(now, timestamp) > SAFE_DISTANCE
    ensures WithinSkew(now, timestamp, TWO_63 - 1) && !Tolerated(now, timestamp, TWO_63 - 1)
  {
    hide Wrap;
  }

  /** The test is right for every configured tolerance exactly up to 9223372036 seconds. */
  lemma SkewTestIsExact(now: int64, timestamp: int64)
    ensures (forall maxSkew: int64 :: maxSkew > 0 ==>
               (WithinSkew(now, timestamp, maxSkew) <==> Tolerated(now, timestamp, maxSkew)))
            <==> Distance(now, timestamp) <= SAFE_DISTANCE
  {
    hide WithinSkew, Tolerated, Distance;
    if Distance(now, timestamp) > SAFE_DISTANCE {
      FarTimestamps(now, timestamp);
      assert 0 < TWO_63 - 1;
    } else {
      forall maxSkew: int64 | maxSkew > 0
        ensures WithinSkew(now, timestamp, maxSkew) <==> Tolerated(now, timestamp, maxSkew)
      {
        NearTimestamps(now, timestamp, maxSkew);
      }
    }
  }

  /** Beyond it, the product turns negative and every tolerance accepts, for about as long again. */
  lemma FarTimestampsPass(now: int64, timestamp: int64, maxSkew: int64)
    requires SAFE_DISTANCE < Distance(now, timestamp) <= 18_446_744_073 && maxSkew > 0
    ensures WithinSkew(now, timestamp, maxSkew) && !Tolerated(now, timestamp, maxSkew)
  {
    var distance: int := Distance(now, timestamp);
    WrapKeeps(now - timestamp);
    WrapKeeps(timestamp - now);
    assert Wrap(distance * SECOND) == distance * SECOND - TWO_64;
    hide Wrap;
  }

  datatype ValidationResult = ValidationResult(valid: bool, timestampSkew: bool)

  /** HMAC-SHA256: a key and a message to a digest. */
  type Mac = (Bytes, Bytes) -> Bytes

  method BuildProof(mac: Mac, secret: Bytes, nonce: Bytes, c: Claims) returns (proof: Bytes)
    ensures proof == mac(secret, Payload(nonce, c))
  {
    var payload := BuildPayload(nonce, c);
    proof := mac(secret, payload);
  }

  /** What validation answers for a proof and the claims it came with. */
  function Verdict(mac: Mac, secret: Bytes, nonce: Bytes, c: Claims, proof: Bytes, now: int64, maxSkew: int64)
    : ValidationResult
  {
    if !WithinSkew(now, c.timestamp, maxSkew) then ValidationResult(false, true)
    else ValidationResult(proof == mac(secret, Payload(nonce, c)), false)
  }

  method ValidateProof(mac: Mac, secret: Bytes, nonce: Bytes, c: Claims, proof: Bytes, now: int64, maxSkew: int64)
    returns (result: ValidationResult)
    ensures result == Verdict(mac, secret, nonce, c, proof, now, maxSkew)
    ensures result.valid ==> !result.timestampSkew && proof == mac(secret, Payload(nonce, c))
    ensures !result.timestampSkew && proof == mac(secret, Payload(nonce, c)) ==> result.valid
    ensures maxSkew > 0 && Distance(now, c.timestamp) <= SAFE_DISTANCE ==>
              (result.timestampSkew <==> Distance(now, c.timestamp) * SECOND > maxSkew)
  {
    if Distance(now, c.timestamp) <= SAFE_DISTANCE {
      NearTimestamps(now, c.timestamp, maxSkew);
    }
    var skew := Wrap(now - c.timestamp);
    if skew < 0 {
      skew := Wrap(-skew);
    }
    if Wrap(skew * SECOND) > maxSkew {
      return ValidationResult(false, true);
    }
    var expected := BuildProof(mac, secret, nonce, c);
    return ValidationResult(expected == proof, false);
  }

  /**
   A proof made for some claims authenticates exactly those, provided the MAC does not collide on these two payloads and
   no string reaches 2^32 bytes.
   */
  lemma ProofBindsClaims(mac: Mac, secret: Bytes, n1: Bytes, c1: Claims, n2: Bytes, c2: Claims, now: int64,
                         maxSkew: int64)
    requires mac(secret, Payload(n1, c1)) == mac(secret, Payload(n2, c2)) ==> Payload(n1, c1) == Payload(n2, c2)
    requires |n1| == |n2| && Short(c1) && Short(c2)
    requires Distance(now, c2.timestamp) <= SAFE_DISTANCE && maxSkew > 0
    ensures Verdict(mac, secret, n2, c2, mac(secret, Payload(n1, c1)), now, maxSkew).valid
            <==> n1 == n2 && c1 == c2 && Tolerated(now, c2.timestamp, maxSkew)
  {
    PayloadInjective(n1, c1, n2, c2);
    SkewTestIsExact(now, c2.timestamp);
  }
}
