/** Enrolment tokens: 22 random bytes printed in base 62 and padded to at least 22 places. */
module EnrollToken {
  import opened Numerals

  const RAW_BYTES := 22
  const MIN_PLACES := 22

  type Byte = b: nat | b < 256

  /** The alphabet in order: digits, then capitals, then small letters. */
  function Letter(d: nat): char
    requires d < 62
  {
    if d < 10 then ('0' as int + d) as char
    else if d < 36 then ('A' as int + d - 10) as char
    else ('a' as int + d - 36) as char
  }

  /** Where a character stands in the alphabet. */
  function Place(c: char): nat {
    if '0' <= c <= '9' then c as nat - '0' as nat
    else if 'A' <= c <= 'Z' then c as nat - 'A' as nat + 10
    else if 'a' <= c <= 'z' then c as nat - 'a' as nat + 36
    else 0
  }

  lemma PlaceOfLetter(d: nat)
    requires d < 62
    ensures Place(Letter(d)) == d
  {
  }

  /** int.from_bytes(raw, "big"). */
  function BigEndian(raw: seq<Byte>): nat {
    if raw == [] then 0 else BigEndian(raw[..|raw| - 1]) * 256 + raw[|raw| - 1]
  }

  function Body(num: nat): string {
    var ds := Padded(num, 62, MIN_PLACES);
    seq(|ds|, i requires 0 <= i < |ds| => Letter(ds[i]))
  }

  function Reversed<T>(s: seq<T>): (r: seq<T>)
    ensures |r| == |s|
  {
    if s == [] then [] else [s[|s| - 1]] + Reversed(s[..|s| - 1])
  }

  lemma ReversedAppend<T>(s: seq<T>, x: T)
    ensures Reversed(s + [x]) == [x] + Reversed(s)
  {
    assert (s + [x])[..|s|] == s;
  }

  /** The divmod loop: digits come out least significant first. */
  method Base62(n: nat) returns (out: seq<nat>)
    ensures Reversed(out) == Digits(n, 62)
  {
    out := [];
    var num := n;
    while num > 0
      invariant Digits(n, 62) == Digits(num, 62) + Reversed(out)
    {
      ReversedAppend(out, num % 62);
      assert Digits(num, 62) + Reversed(out) == Digits(num / 62, 62) + ([num % 62] + Reversed(out));
      out := out + [num % 62];
      num := num / 62;
    }
  }

  /** generate_enroll_token, given the random bytes. */
  method GenerateEnrollToken(raw: seq<Byte>) returns (token: string)
    requires |raw| == RAW_BYTES
    ensures token == "t_" + Body(BigEndian(raw))
  {
    hide Digits, BigEndian;
    var out := Base62(BigEndian(raw));
    var digits := Reversed(out);
    var padded := Zeros(if |digits| < MIN_PLACES then MIN_PLACES - |digits| else 0) + digits;
    assert padded == Padded(BigEndian(raw), 62, MIN_PLACES);
    token := "t_" + seq(|padded|, i requires 0 <= i < |padded| => Letter(padded[i]));
  }

  function Places(body: string): seq<nat> {
    seq(|body|, i requires 0 <= i < |body| => Place(body[i]))
  }

  /** The body decodes in base 62 to the number drawn, padding or not. */
  lemma BodyDecodes(num: nat)
    ensures Value(Places(Body(num)), 62) == num
  {
    var ds := Padded(num, 62, MIN_PLACES);
    forall i | 0 <= i < |ds| ensures Places(Body(num))[i] == ds[i] {
      PlaceOfLetter(ds[i]);
    }
    assert Places(Body(num)) == ds;
    PaddedReadsBack(num, 62, MIN_PLACES);
  }

  lemma {:induction false} BigEndianInjective(a: seq<Byte>, b: seq<Byte>)
    requires |a| == |b| && BigEndian(a) == BigEndian(b)
    ensures a == b
  {
    if a != [] {
      var x: nat, y: nat := a[|a| - 1], b[|b| - 1];
      var p, q := BigEndian(a[..|a| - 1]), BigEndian(b[..|b| - 1]);
      assert p * 256 + x == q * 256 + y && x < 256 && y < 256;
      assert p == q && x == y;
      BigEndianInjective(a[..|a| - 1], b[..|b| - 1]);
      assert a == a[..|a| - 1] + [a[|a| - 1]] && b == b[..|b| - 1] + [b[|b| - 1]];
    }
  }

  lemma {:induction false} BigEndianBound(raw: seq<Byte>)
    ensures BigEndian(raw) < Power(256, |raw|)
  {
    if raw != [] {
      BigEndianBound(raw[..|raw| - 1]);
      QuotientBelow(BigEndian(raw[..|raw| - 1]), raw[|raw| - 1], 256, Power(256, |raw| - 1));
    }
  }

  /** Different draws give different tokens. */
  lemma TokensAreDistinct(a: seq<Byte>, b: seq<Byte>)
    requires |a| == RAW_BYTES && |b| == RAW_BYTES && a != b
    ensures "t_" + Body(BigEndian(a)) != "t_" + Body(BigEndian(b))
  {
    var x, y := Body(BigEndian(a)), Body(BigEndian(b));
    if x == y {
      BodyDecodes(BigEndian(a));
      BodyDecodes(BigEndian(b));
      BigEndianInjective(a, b);
    }
    assert ("t_" + x)[2..] == x && ("t_" + y)[2..] == y;
  }

  lemma PowersNearTheDraw()
    ensures Power(62, 29) < Power(256, 22) <= Power(62, 30)
  {
    assert Power(62, 10) == 839299365868340224;
    assert Power(62, 20) == 839299365868340224 * 839299365868340224 by { PowerAdds(62, 10, 10); }
    assert Power(62, 30) == 839299365868340224 * 839299365868340224 * 839299365868340224 by { PowerAdds(62, 20, 10); }
    assert Power(62, 30) == Power(62, 29) * 62;
    assert Power(256, 11) == 0x1_00000000_00000000_000000;
    assert Power(256, 22) == 0x1_00000000_00000000_000000 * 0x1_00000000_00000000_000000 by { PowerAdds(256, 11, 11); }
  }

  lemma TimesAssociates(x: nat, y: nat, z: nat)
    ensures x * y * z == x * (y * z)
  {
  }

  lemma {:induction false} PowerAdds(base: nat, a: nat, b: nat)
    ensures Power(base, a + b) == Power(base, a) * Power(base, b)
  {
    if b > 0 {
      PowerAdds(base, a, b - 1);
      assert Power(base, a + b) == Power(base, a + (b - 1)) * base;
      TimesAssociates(Power(base, a), Power(base, b - 1), base);
    }
  }

  /** A body has 22 to 30 characters: more than 22 exactly for draws of 62^22 or more, 30 exactly from 62^29 on. */
  lemma BodyLength(raw: seq<Byte>)
    requires |raw| == RAW_BYTES
    ensures var num := BigEndian(raw);
            && 22 <= |Body(num)| <= 30
            && (|Body(num)| == 22 <==> num < Power(62, 22))
            && (|Body(num)| == 30 <==> num >= Power(62, 29))
  {
    hide Power, Digits, BigEndian;
    var num := BigEndian(raw);
    BigEndianBound(raw);
    PowersNearTheDraw();
    DigitCount(num, 62, 22);
    DigitCount(num, 62, 29);
    DigitCount(num, 62, 30);
  }

  /** Thirty characters do occur: for the largest draw. */
  lemma ThirtyIsAttained() returns (raw: seq<Byte>)
    ensures |raw| == RAW_BYTES && |Body(BigEndian(raw))| == 30
  {
    raw := seq(RAW_BYTES, _ => 255);
    AllOnes(RAW_BYTES);
    PowersNearTheDraw();
    BodyLength(raw);
  }

  lemma {:induction false} AllOnes(n: nat)
    ensures BigEndian(seq(n, _ => 255)) == Power(256, n) - 1
  {
    if n > 0 {
      var raw: seq<Byte> := seq(n, _ => 255);
      assert raw[..n - 1] == seq(n - 1, _ => 255);
      AllOnes(n - 1);
    }
  }
}
