/** `std::str::from_utf8` on the bytes of one body frame. */
module Utf8 {
  import opened Backends

  type byte = x: int | 0 <= x < 256

  function EncodeChar(c: char): (bs: seq<byte>)
    ensures 1 <= |bs| <= 4
  {
    var n := c as int;
    if n < 0x80 then
      [n]
    else if n < 0x800 then
      [0xC0 + n / 0x40, 0x80 + n % 0x40]
    else if n < 0x1_0000 then
      [0xE0 + n / 0x1000, 0x80 + n / 0x40 % 0x40, 0x80 + n % 0x40]
    else
      [0xF0 + n / 0x4_0000, 0x80 + n / 0x1000 % 0x40, 0x80 + n / 0x40 % 0x40, 0x80 + n % 0x40]
  }

  function Encode(s: string): seq<byte> {
    if s == "" then [] else EncodeChar(s[0]) + Encode(s[1..])
  }

  /** Length of the sequence a lead byte announces; 0 for an invalid lead. */
  function SequenceLength(lead: byte): (n: nat)
    ensures n <= 4
  {
    if lead < 0x80 then 1
    else if 0xC0 <= lead < 0xE0 then 2
    else if 0xE0 <= lead < 0xF0 then 3
    else if 0xF0 <= lead < 0xF8 then 4
    else 0
  }

  function CodePoint(bs: seq<byte>): int
    requires 1 <= |bs| <= 4
  {
    var lead: int := bs[0];
    if |bs| == 1 then lead
    else if |bs| == 2 then (lead - 0xC0) * 0x40 + Tail(bs[1])
    else if |bs| == 3 then (lead - 0xE0) * 0x1000 + Tail(bs[1]) * 0x40 + Tail(bs[2])
    else (lead - 0xF0) * 0x4_0000 + Tail(bs[1]) * 0x1000 + Tail(bs[2]) * 0x40 + Tail(bs[3])
  }

  /** Payload of a continuation byte. */
  function Tail(b: byte): int {
    b as int - 0x80
  }

  predicate IsScalar(n: int) {
    0 <= n < 0xD800 || 0xE000 <= n < 0x11_0000
  }

  /** The first character, if the bytes start with a well-formed one. Overlong
      forms, surrogates and stray continuation bytes fail the final comparison. */
  function FirstChar(bs: seq<byte>): (r: Option<char>)
    requires bs != []
    ensures r.Some? ==> EncodeChar(r.value) <= bs
  {
    var len := SequenceLength(bs[0]);
    if len == 0 || |bs| < len then None
    else
      var n := CodePoint(bs[..len]);
      if IsScalar(n) && EncodeChar(n as char) == bs[..len] then Some(n as char) else None
  }

  function FromUtf8(bs: seq<byte>): Option<string>
    decreases |bs|
  {
    if bs == [] then Some("")
    else
      match FirstChar(bs)
      case None => None
      case Some(c) =>
        match FromUtf8(bs[|EncodeChar(c)|..])
        case None => None
        case Some(s) => Some([c] + s)
  }

  lemma FirstCharOfEncoded(c: char, rest: seq<byte>)
    ensures FirstChar(EncodeChar(c) + rest) == Some(c)
  {
    var bs := EncodeChar(c);
    assert (bs + rest)[0] == bs[0];
    LeadAnnouncesLength(c);
    assert (bs + rest)[..|bs|] == bs;
    CodePointOfEncoded(c);
  }

  lemma LeadAnnouncesLength(c: char)
    ensures SequenceLength(EncodeChar(c)[0]) == |EncodeChar(c)|
  {
  }

  lemma CodePointOfEncoded(c: char)
    ensures CodePoint(EncodeChar(c)) == c as int
  {
    var n := c as int;
    assert n / 0x40 / 0x40 == n / 0x1000;
    assert n / 0x1000 / 0x40 == n / 0x4_0000;
  }

  /** One character of each length: A, e with acute, the euro sign, and a face. */
  lemma KnownEncodings()
    ensures EncodeChar('A') == [0x41]
    ensures EncodeChar('\U{00E9}') == [0xC3, 0xA9]
    ensures EncodeChar('\U{20AC}') == [0xE2, 0x82, 0xAC]
    ensures EncodeChar('\U{1F600}') == [0xF0, 0x9F, 0x98, 0x80]
  {
  }

  /** Decoding undoes encoding, whatever follows the encoded text. */
  lemma {:induction false} DecodeEncoded(s: string)
    ensures FromUtf8(Encode(s)) == Some(s)
  {
    if s == "" {
    } else {
      FirstCharOfEncoded(s[0], Encode(s[1..]));
      DecodeEncoded(s[1..]);
      assert Encode(s)[|EncodeChar(s[0])|..] == Encode(s[1..]);
      assert [s[0]] + s[1..] == s;
    }
  }

  /** Only encodings decode. */
  lemma {:induction false} EncodeDecoded(bs: seq<byte>)
    ensures FromUtf8(bs).Some? ==> Encode(FromUtf8(bs).value) == bs
    decreases |bs|
  {
    hide EncodeChar;
    if bs == [] || FromUtf8(bs).None? {
    } else {
      var c := FirstChar(bs).value;
      var rest := bs[|EncodeChar(c)|..];
      EncodeDecoded(rest);
      assert FromUtf8(bs).value[1..] == FromUtf8(rest).value;
      assert bs == EncodeChar(c) + rest;
    }
  }

  lemma Associate(x: seq<byte>, y: seq<byte>, z: seq<byte>)
    ensures x + (y + z) == x + y + z
  {
  }

  lemma {:induction false} EncodeConcat(s: string, t: string)
    ensures Encode(s + t) == Encode(s) + Encode(t)
  {
    hide EncodeChar;
    if s == "" {
      assert s + t == t;
    } else {
      EncodeConcat(s[1..], t);
      assert (s + t)[1..] == s[1..] + t;
      Associate(EncodeChar(s[0]), Encode(s[1..]), Encode(t));
    }
  }

  /** A character cut in two is unreadable on both sides of the cut: what precedes
      it ends in an incomplete sequence, what follows starts inside one. */
  lemma CutCharacterIsUnreadable(a: string, c: char, k: nat, b: seq<byte>)
    requires 0 < k < |EncodeChar(c)|
    ensures FromUtf8(Encode(a) + EncodeChar(c)[..k]) == None
    ensures FromUtf8(EncodeChar(c)[k..] + b) == None
  {
    HeadIsIncomplete(a, c, k);
    TailIsContinuation(c, k);
    assert (EncodeChar(c)[k..] + b)[0] == EncodeChar(c)[k];
  }

  lemma {:induction false} HeadIsIncomplete(a: string, c: char, k: nat)
    requires 0 < k < |EncodeChar(c)|
    ensures FromUtf8(Encode(a) + EncodeChar(c)[..k]) == None
  {
    hide EncodeChar, FirstChar;
    var head := EncodeChar(c)[..k];
    if a == "" {
      PartialCharacter(c, k);
      assert Encode(a) + head == head;
    } else {
      var lead, rest := EncodeChar(a[0]), Encode(a[1..]) + head;
      FirstCharOfEncoded(a[0], rest);
      HeadIsIncomplete(a[1..], c, k);
      Associate(lead, Encode(a[1..]), head);
      hide Encode;
      assert (lead + rest)[|lead|..] == rest;
    }
  }

  lemma PartialCharacter(c: char, k: nat)
    requires 0 < k < |EncodeChar(c)|
    ensures FirstChar(EncodeChar(c)[..k]) == None
  {
    LeadAnnouncesLength(c);
    hide EncodeChar;
    assert EncodeChar(c)[..k][0] == EncodeChar(c)[0];
  }

  lemma TailIsContinuation(c: char, k: nat)
    requires 0 < k < |EncodeChar(c)|
    ensures SequenceLength(EncodeChar(c)[k]) == 0
  {
  }
}
