/** The textual form of socket identities, and when a return address leads back to its owner. */
module IdentityCodec {
  import opened Bytes

  const AT: Byte := 64

  /** An identity the socket made up: five octets, the first one 0. */
  predicate IsSocketId(id: Frame) { |id| == 5 && id[0] == 0 }

  /** The textual form of such an identity: '@' and ten digits. */
  predicate LooksEncoded(text: Frame) { |text| == IDENTITY_MAXLEN && text[0] == AT }

  function HexChar(n: int): Byte
    requires 0 <= n < 16
  {
    if n < 10 then 48 + n else 55 + n
  }

  /** The program's hex_to_bin table; -1 for what is no digit. */
  function HexToBin(c: Byte): int
  {
    var m := c % 128;
    if 48 <= m <= 57 then m - 48 else if 65 <= m <= 70 then m - 55 else if 97 <= m <= 102 then m - 87 else -1
  }

  function Encode(id: Frame): (text: Frame)
    requires |id| == 5
    ensures LooksEncoded(text) && 0 !in text
  {
    [AT, HexChar(id[0] / 16), HexChar(id[0] % 16), HexChar(id[1] / 16), HexChar(id[1] % 16),
     HexChar(id[2] / 16), HexChar(id[2] % 16), HexChar(id[3] / 16), HexChar(id[3] % 16),
     HexChar(id[4] / 16), HexChar(id[4] % 16)]
  }

  /** "0123456789ABCDEF" */
  const DIGITS: Frame := [48, 49, 50, 51, 52, 53, 54, 55, 56, 57, 65, 66, 67, 68, 69, 70]

  /** The text is an '@' and, octet for octet, the high and the low digit. */
  lemma EncodedDigits(id: Frame, i: nat)
    requires |id| == 5 && i < 5
    ensures Encode(id)[0] == 64
    ensures Encode(id)[2 * i + 1] == DIGITS[id[i] / 16] && Encode(id)[2 * i + 2] == DIGITS[id[i] % 16]
  {
    DigitText(id[i] / 16);
    DigitText(id[i] % 16);
    PairAt(id, i);
  }

  lemma DigitText(n: nat)
    requires n < 16
    ensures HexChar(n) == DIGITS[n]
  {
  }

  lemma PairAt(id: Frame, i: nat)
    requires |id| == 5 && i < 5
    ensures Encode(id)[2 * i + 1] == HexChar(id[i] / 16) && Encode(id)[2 * i + 2] == HexChar(id[i] % 16)
  {
    assert i == 0 || i == 1 || i == 2 || i == 3 || i == 4;
  }

  /** Lower case letters are digits as well on the way back. */
  lemma DigitValues(i: nat)
    requires i < 16
    ensures HexToBin(DIGITS[i]) == i && (i >= 10 ==> HexToBin(DIGITS[i] + 32) == i)
  {
  }

  function DecodeByte(hi: Byte, lo: Byte): Byte
  {
    (HexToBin(hi) * 16 + HexToBin(lo)) % 256
  }

  function Decode(text: Frame): (id: Frame)
    requires LooksEncoded(text)
    ensures |id| == 5
  {
    [DecodeByte(text[1], text[2]), DecodeByte(text[3], text[4]), DecodeByte(text[5], text[6]),
     DecodeByte(text[7], text[8]), DecodeByte(text[9], text[10])]
  }

  lemma DigitRoundTrip(b: Byte)
    ensures DecodeByte(HexChar(b / 16), HexChar(b % 16)) == b
  {
    assert HexToBin(HexChar(b / 16)) == b / 16;
    assert HexToBin(HexChar(b % 16)) == b % 16;
  }

  lemma DecodeEncode(id: Frame)
    requires |id| == 5
    ensures Decode(Encode(id)) == id
  {
    DigitRoundTrip(id[0]);
    DigitRoundTrip(id[1]);
    DigitRoundTrip(id[2]);
    DigitRoundTrip(id[3]);
    DigitRoundTrip(id[4]);
  }

  lemma EncodeInjective(a: Frame, b: Frame)
    requires |a| == 5 && |b| == 5 && Encode(a) == Encode(b)
    ensures a == b
  {
    DecodeEncode(a);
    DecodeEncode(b);
  }

  // ---------------------------------------------------------------- the loops of the program

  /** The loop writes digit pairs behind the '@'. */
  method EncodeUuid(data: array<Byte>) returns (text: array<Byte>)
    requires data.Length == 5 && data[0] == 0
    ensures text.Length == IDENTITY_MAXLEN + 1
    ensures text[..IDENTITY_MAXLEN] == Encode(data[..]) && text[IDENTITY_MAXLEN] == 0
  {
    text := new Byte[IDENTITY_MAXLEN + 1](_ => 0);
    text[0] := AT;
    for i := 0 to 5
      invariant text[0] == AT
      invariant forall k :: 0 <= k < i ==>
                  text[2 * k + 1] == HexChar(data[k] / 16) && text[2 * k + 2] == HexChar(data[k] % 16)
    {
      text[2 * i + 1] := HexChar(data[i] / 16);
      text[2 * i + 2] := HexChar(data[i] % 16);
    }
    assert text[1] == HexChar(data[0] / 16) && text[3] == HexChar(data[1] / 16) && text[5] == HexChar(data[2] / 16);
    assert text[7] == HexChar(data[3] / 16) && text[9] == HexChar(data[4] / 16);
    text[IDENTITY_MAXLEN] := 0;
  }

  method DecodeUuid(text: Frame) returns (data: array<Byte>)
    requires LooksEncoded(text)
    ensures data.Length == 6 && data[..5] == Decode(text)
  {
    data := new Byte[6](_ => 0);
    for i := 0 to 5
      invariant forall k :: 0 <= k < i ==> data[k] == DecodeByte(text[2 * k + 1], text[2 * k + 2])
    {
      data[i] := DecodeByte(text[2 * i + 1], text[2 * i + 2]);
    }
    assert data[0] == DecodeByte(text[1], text[2]) && data[1] == DecodeByte(text[3], text[4]);
    assert data[2] == DecodeByte(text[5], text[6]) && data[3] == DecodeByte(text[7], text[8]);
    assert data[4] == DecodeByte(text[9], text[10]);
  }

  // ---------------------------------------------------------------- frame 0 on its way in and out

  function ToText(id: Frame): Frame { if IsSocketId(id) then Encode(id) else id }

  function ToWire(text: Frame): Frame { if LooksEncoded(text) then Decode(text) else text }

  /** Sending what was received restores frame 0, unless the identity itself looks like an encoded one. */
  lemma SendAfterRecv(id: Frame)
    ensures ToWire(ToText(id)) == id <==> !LooksEncoded(id)
  {
    if IsSocketId(id) {
      DecodeEncode(id);
    }
  }

  /** The address a request is stored under, after the broker's C strings and the 11 octet buffer. */
  function ReturnAddress(id: Frame): Frame { Bounded(ToText(id), IDENTITY_MAXLEN) }

  /** Identities whose owner gets his answers. */
  predicate Addressable(id: Frame)
  {
    IsSocketId(id) || (0 !in id && |id| <= IDENTITY_MAXLEN && !LooksEncoded(id))
  }

  /** An answer reaches the client exactly when its identity is addressable. */
  lemma ReturnAddressExact(id: Frame)
    ensures ToWire(ReturnAddress(id)) == id <==> Addressable(id)
  {
    if IsSocketId(id) {
      DecodeEncode(id);
      CStrExact(Encode(id));
    } else {
      BoundedExact(id, IDENTITY_MAXLEN);
    }
  }
}
