/** The wire-encoding helpers of the packet codec and what a reader gets back from them. */
module WireEncoding {
  import opened Prelude

  // ---- Specification functions ----

  /** The variable-length integer of section 2.2.3 of MQTT 3.1.1, low seven bits first. */
  function VarLen(value: nat): Bytes {
    if value / 128 > 0 then [value % 128 + 128] + VarLen(value / 128) else [value % 128]
  }

  function U16Bytes(v: u16): Bytes { [v / 256, v % 256] }

  function U16Of(hi: byte, lo: byte): u16 { hi * 256 + lo }

  /** A length-prefixed string; the prefix is the size truncated to 16 bits. */
  function MqttString(s: Bytes): Bytes { U16Bytes(|s| % 0x1_0000) + s }

  /** A whole packet: type byte, remaining length (the size truncated to 32 bits), body. */
  function Frame(typeByte: byte, body: Bytes): Bytes {
    [typeByte] + VarLen(|body| % 0x1_0000_0000) + body
  }

  datatype LengthField =
    | Truncated                           // the stream ends inside the field
    | Malformed                           // the last allowed byte still has its continuation bit
    | Length(value: nat, used: nat)       // decoded value and number of bytes it took

  /** What a remaining-length field of at most `budget` bytes at the head of `s` means. */
  function ReadLength(s: Bytes, budget: nat): LengthField
    requires budget > 0
    decreases budget
  {
    if s == [] then Truncated
    else if s[0] < 128 then Length(s[0], 1)
    else if budget == 1 then Malformed
    else match ReadLength(s[1..], budget - 1)
      case Length(v, n) => Length(s[0] % 128 + 128 * v, n + 1)
      case bad => bad
  }

  /** A length-prefixed string at the head of `s`, and what follows it. */
  function TakeString(s: Bytes): Option<(Bytes, Bytes)> {
    if |s| < 2 then None
    else
      var n := U16Of(s[0], s[1]);
      if 2 + n > |s| then None else Some((s[2..2 + n], s[2 + n..]))
  }

  function Pow128(n: nat): (r: nat)
    ensures r > 0
  {
    if n == 0 then 1 else 128 * Pow128(n - 1)
  }

  // ---- The buffer that the builders grow in place ----

  /** `std::vector<uint8_t>` as the builders use it. */
  class ByteBuffer {
    var bytes: Bytes

    constructor ()
      ensures bytes == []
    {
      bytes := [];
    }

    method PushBack(b: byte)
      modifies this
      ensures bytes == old(bytes) + [b]
    {
      bytes := bytes + [b];
    }

    method Insert(s: Bytes)
      modifies this
      ensures bytes == old(bytes) + s
    {
      bytes := bytes + s;
    }

    method AppendVarLen(v: u32)
      modifies this
      ensures bytes == old(bytes) + VarLen(v)
    {
      var value: u32 := v;
      var more := true;
      while more
        invariant more ==> bytes + VarLen(value) == old(bytes) + VarLen(v)
        invariant !more ==> bytes == old(bytes) + VarLen(v)
        decreases more, value
      {
        var b: byte := value % 128;
        var rest := value / 128;
        if rest > 0 { b := b + 128; }
        ghost var before := bytes;
        PushBack(b);
        assert rest > 0 ==> before + VarLen(value) == bytes + VarLen(rest);
        value := rest;
        more := value > 0;
      }
    }

    method AppendU16(v: u16)
      modifies this
      ensures bytes == old(bytes) + U16Bytes(v)
    {
      PushBack(v / 256);
      PushBack(v % 256);
    }

    method AppendMqttString(s: Bytes)
      modifies this
      ensures bytes == old(bytes) + MqttString(s)
    {
      AppendU16(|s| % 0x1_0000);
      Insert(s);
    }

    method PrependFixedHeader(typeByte: byte)
      modifies this
      ensures bytes == Frame(typeByte, old(bytes))
    {
      var hdr := new ByteBuffer();
      hdr.PushBack(typeByte);
      hdr.AppendVarLen(|bytes| % 0x1_0000_0000);
      hdr.Insert(bytes);
      bytes := hdr.bytes;
    }
  }

  // ---- The remaining-length field ----

  /** A reader with a budget of n bytes gets back exactly the values below 128^n; any larger
      value is cut off at the budget and refused. */
  lemma {:induction false} VarLenReadsBack(value: nat, rest: Bytes, budget: nat)
    requires budget > 0
    ensures ReadLength(VarLen(value) + rest, budget)
         == if value < Pow128(budget) then Length(value, |VarLen(value)|) else Malformed
    decreases budget
  {
    if value / 128 > 0 {
      assert (VarLen(value) + rest)[1..] == VarLen(value / 128) + rest;
      if budget > 1 {
        VarLenReadsBack(value / 128, rest, budget - 1);
        assert value < Pow128(budget) <==> value / 128 < Pow128(budget - 1);
      } else {
        assert Pow128(1) == 128 * Pow128(0) == 128;
      }
    } else {
      assert 128 * Pow128(budget - 1) >= 128;
    }
  }

  lemma FourByteBound()
    ensures Pow128(4) == 0x1000_0000
  {
    assert Pow128(1) == 128 && Pow128(2) == 128 * 128 && Pow128(3) == 128 * 128 * 128;
  }

  /** Section 2.2.3: for every 32-bit value the four-byte reader accepts the encoder's output
      if and only if the value is below 2^28, and then it returns that value and takes exactly
      those bytes. */
  lemma RemainingLengthRoundTrip(value: u32, rest: Bytes)
    ensures ReadLength(VarLen(value) + rest, 4)
         == if value < 0x1000_0000 then Length(value, |VarLen(value)|) else Malformed
    ensures value < 0x1000_0000 <==> 1 <= |VarLen(value)| <= 4
  {
    FourByteBound();
    VarLenReadsBack(value, rest, 4);
    VarLenSize(value, 4);
  }

  lemma {:induction false} VarLenSize(value: nat, budget: nat)
    ensures 1 <= |VarLen(value)|
    ensures budget > 0 ==> (|VarLen(value)| <= budget <==> value < Pow128(budget))
    decreases value
  {
    if value / 128 > 0 {
      VarLenSize(value / 128, if budget > 0 then budget - 1 else 0);
      if budget == 1 {
        assert Pow128(1) == 128 * Pow128(0) == 128;
      } else if budget > 1 {
        assert value < Pow128(budget) <==> value / 128 < Pow128(budget - 1);
      }
    } else if budget > 0 {
      assert 128 * Pow128(budget - 1) >= 128;
    }
  }

  /** No shorter encoding decodes to the same value, and the encoder's is the only one of its
      length: whatever the reader accepts takes at least as many bytes as the encoder writes,
      and when it takes as many it is what the encoder writes. */
  lemma {:induction false} VarLenIsShortest(s: Bytes, budget: nat)
    requires budget > 0 && ReadLength(s, budget).Length?
    ensures var r := ReadLength(s, budget);
      && 1 <= r.used <= |s|
      && r.value < Pow128(r.used) && r.used <= budget
      && |VarLen(r.value)| <= r.used
      && (|VarLen(r.value)| == r.used ==> s[..r.used] == VarLen(r.value))
    decreases budget
  {
    var r := ReadLength(s, budget);
    if s[0] < 128 {
      assert Pow128(1) == 128 * Pow128(0) == 128;
    } else {
      VarLenIsShortest(s[1..], budget - 1);
      var t := ReadLength(s[1..], budget - 1);
      assert r.value % 128 == s[0] % 128 && r.value / 128 == t.value;
      assert Pow128(r.used) == 128 * Pow128(t.used);
      if t.value > 0 {
        assert VarLen(r.value) == [r.value % 128 + 128] + VarLen(t.value);
        if |VarLen(r.value)| == r.used {
          assert s[..r.used] == [s[0]] + s[1..][..t.used];
        }
      }
    }
  }

  // ---- Strings and frames ----

  lemma U16RoundTrip(v: u16)
    ensures |U16Bytes(v)| == 2 && U16Of(U16Bytes(v)[0], U16Bytes(v)[1]) == v
  {
  }

  lemma U16Inverse(hi: byte, lo: byte)
    ensures U16Bytes(U16Of(hi, lo)) == [hi, lo]
  {
  }

  /** A string comes back from the wire if and only if its length fits the 16-bit prefix. */
  lemma StringRoundTrip(s: Bytes, rest: Bytes)
    ensures TakeString(MqttString(s) + rest) == Some((s, rest)) <==> |s| <= 0xFFFF
  {
    var w := MqttString(s) + rest;
    U16RoundTrip(|s| % 0x1_0000);
    if |s| <= 0xFFFF {
      assert w[2..2 + |s|] == s && w[2 + |s|..] == rest;
    }
  }

  /** What TakeString accepts is the encoding of the string it returns. */
  lemma TakeStringInverse(w: Bytes)
    requires TakeString(w).Some?
    ensures var (s, rest) := TakeString(w).value;
      |s| <= 0xFFFF && w == MqttString(s) + rest
  {
    U16Inverse(w[0], w[1]);
    var n := U16Of(w[0], w[1]);
    assert w == w[..2] + w[2..2 + n] + w[2 + n..];
  }

  /** Packets with bodies below 2^28 bytes are told apart by their bytes. */
  lemma FrameInjective(t1: byte, b1: Bytes, t2: byte, b2: Bytes)
    requires |b1| < 0x1000_0000 && |b2| < 0x1000_0000
    requires Frame(t1, b1) == Frame(t2, b2)
    ensures t1 == t2 && b1 == b2
  {
    hide VarLen;
    hide ReadLength;
    var w1, w2 := VarLen(|b1|) + b1, VarLen(|b2|) + b2;
    assert Frame(t1, b1) == [t1] + w1 && Frame(t2, b2) == [t2] + w2;
    assert t1 == Frame(t1, b1)[0] && w1 == Frame(t1, b1)[1..];
    assert t2 == Frame(t2, b2)[0] && w2 == Frame(t2, b2)[1..];
    RemainingLengthRoundTrip(|b1|, b1);
    RemainingLengthRoundTrip(|b2|, b2);
    assert b1 == w1[|VarLen(|b1|)|..] && b2 == w2[|VarLen(|b2|)|..];
  }
}
