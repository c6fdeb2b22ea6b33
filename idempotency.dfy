/** generateIdempotencyKey: a version-4 UUID (section 5.4 of RFC 9562) made from 16
    random bytes, written as 36 lower-case hex characters grouped 8-4-4-4-12. The
    random bytes are an input. */
module IdempotencyKey {

  function HexDigit(n: nat): char
    requires n < 16
  {
    "0123456789abcdef"[n]
  }

  /** High and low nibble of a byte. */
  function Hi(b: bv8): (n: nat)
    ensures n < 16
  {
    (b >> 4) as nat
  }

  function Lo(b: bv8): (n: nat)
    ensures n < 16
  {
    (b & 0x0f) as nat
  }

  /** bin2hex: two lower-case hex digits per byte, high nibble first. */
  function Bin2Hex(bytes: seq<bv8>): (h: string)
    ensures |h| == 2 * |bytes|
    ensures forall i :: 0 <= i < |bytes| ==> h[2 * i] == HexDigit(Hi(bytes[i]))
    ensures forall i :: 0 <= i < |bytes| ==> h[2 * i + 1] == HexDigit(Lo(bytes[i]))
  {
    if bytes == [] then []
    else
      var rest := Bin2Hex(bytes[1..]);
      assert forall i :: 1 <= i < |bytes| ==> bytes[i] == bytes[1..][i - 1];
      [HexDigit(Hi(bytes[0])), HexDigit(Lo(bytes[0]))] + rest
  }

  /** The version nibble of byte 6 becomes 4; the variant bits of byte 8 become 10. */
  function SetVersion(bytes: seq<bv8>): (v: seq<bv8>)
    requires |bytes| == 16
    ensures |v| == 16
  {
    bytes[6 := (bytes[6] & 0x0f) | 0x40][8 := (bytes[8] & 0x3f) | 0x80]
  }

  /** `vsprintf('%s%s-%s-%s-%s-%s%s%s', str_split($hex, 4))` */
  function Dashed(h: string): (k: string)
    requires |h| == 32
    ensures |k| == 36
  {
    h[..8] + "-" + h[8..12] + "-" + h[12..16] + "-" + h[16..20] + "-" + h[20..]
  }

  function Key(bytes: seq<bv8>): string
    requires |bytes| == 16
  {
    Dashed(Bin2Hex(SetVersion(bytes)))
  }

  /** The hex digit a non-dash key position shows. */
  function HexIndex(p: nat): nat {
    if p < 8 then p else if p < 13 then p - 1 else if p < 18 then p - 2 else if p < 23 then p - 3 else p - 4
  }

  predicate IsDash(p: nat) {
    p == 8 || p == 13 || p == 18 || p == 23
  }

  /** Nibble `j` of a byte string, high nibble first. */
  function Nibble(bytes: seq<bv8>, j: nat): nat
    requires j < 2 * |bytes|
  {
    if j % 2 == 0 then Hi(bytes[j / 2]) else Lo(bytes[j / 2])
  }

  lemma DashedIndex(h: string, p: nat)
    requires |h| == 32 && p < 36
    ensures IsDash(p) ==> Dashed(h)[p] == '-'
    ensures !IsDash(p) ==> HexIndex(p) < 32 && Dashed(h)[p] == h[HexIndex(p)]
  {
  }

  lemma VersionNibbles(b: bv8)
    ensures Hi((b & 0x0f) | 0x40) == 4 && Lo((b & 0x0f) | 0x40) == Lo(b)
  {
    assert ((b & 0x0f) | 0x40) >> 4 == 4;
    assert ((b & 0x0f) | 0x40) & 0x0f == b & 0x0f;
  }

  lemma VariantNibbles(b: bv8)
    ensures Hi((b & 0x3f) | 0x80) == 8 + Hi(b) % 4 && Lo((b & 0x3f) | 0x80) == Lo(b)
  {
    assert ((b & 0x3f) | 0x80) >> 4 == ((b >> 4) & 3) + 8;
    assert ((b >> 4) & 3) as nat == Hi(b) % 4 by {
      assert (b >> 4) & 3 == (b >> 4) % 4;
    }
    assert ((b & 0x3f) | 0x80) & 0x0f == b & 0x0f;
  }

  /** The key is 36 characters grouped 8-4-4-4-12; character 14 is the version digit
      '4', character 19 is the variant digit (8, 9, a or b, keeping two bits of the
      input), and every other hex digit is the input's nibble at that place. */
  lemma {:induction false} KeyLayout(bytes: seq<bv8>)
    requires |bytes| == 16
    ensures |Key(bytes)| == 36
    ensures forall p :: 0 <= p < 36 && IsDash(p) ==> Key(bytes)[p] == '-'
    ensures Key(bytes)[14] == '4'
    ensures Key(bytes)[19] == HexDigit(8 + Hi(bytes[8]) % 4)
    ensures Key(bytes)[19] in {'8', '9', 'a', 'b'}
    ensures forall p :: 0 <= p < 36 && !IsDash(p) && p != 14 && p != 19 ==>
      HexIndex(p) < 32 && Key(bytes)[p] == HexDigit(Nibble(bytes, HexIndex(p)))
  {
    var v := SetVersion(bytes);
    var h := Bin2Hex(v);
    VersionNibbles(bytes[6]);
    VariantNibbles(bytes[8]);
    forall p | 0 <= p < 36
      ensures IsDash(p) ==> Key(bytes)[p] == '-'
      ensures !IsDash(p) ==> HexIndex(p) < 32 && Key(bytes)[p] == h[HexIndex(p)]
    {
      DashedIndex(h, p);
    }
    assert h[12] == HexDigit(Hi(v[6]));
    assert h[16] == HexDigit(Hi(v[8]));
    var t := Hi(bytes[8]) % 4;
    assert HexDigit(8 + t) in {'8', '9', 'a', 'b'} by {
      assert t == 0 || t == 1 || t == 2 || t == 3;
    }
    forall p | 0 <= p < 36 && !IsDash(p) && p != 14 && p != 19
      ensures Key(bytes)[p] == HexDigit(Nibble(bytes, HexIndex(p)))
    {
      var j := HexIndex(p);
      assert j != 12 && j != 16;
      if j % 2 == 0 {
        assert h[2 * (j / 2)] == HexDigit(Hi(v[j / 2]));
      } else {
        assert h[2 * (j / 2) + 1] == HexDigit(Lo(v[j / 2]));
      }
    }
  }

  /** generateIdempotencyKey: sets the version and variant bits of the random bytes in
      place, then formats them. */
  method GenerateIdempotencyKey(data: array<bv8>) returns (key: string)
    requires data.Length == 16
    modifies data
    ensures data[..] == SetVersion(old(data[..]))
    ensures key == Key(old(data[..]))
  {
    data[6] := (data[6] & 0x0f) | 0x40;
    data[8] := (data[8] & 0x3f) | 0x80;
    key := Dashed(Bin2Hex(data[..]));
  }

  /** A key drawn from the given random bytes, through a fresh buffer. */
  method NewKey(random: seq<bv8>) returns (key: string)
    requires |random| == 16
    ensures key == Key(random)
  {
    var data := new bv8[16](i requires 0 <= i < 16 => random[i]);
    assert data[..] == random;
    key := GenerateIdempotencyKey(data);
  }
}
