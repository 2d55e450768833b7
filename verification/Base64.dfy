// Base64, section 4 of RFC 4648: the encoder with padding, and the lenient
// decoder of Python's binascii, which skips foreign characters.
module Base64 {
  import opened Wrappers

  type Byte = x: int | 0 <= x < 256
  type Sextet = x: int | 0 <= x < 64

  function CharOf(v: Sextet): char {
    if v < 26 then 'A' + v as char
    else if v < 52 then 'a' + (v - 26) as char
    else if v < 62 then '0' + (v - 52) as char
    else if v == 62 then '+' else '/'
  }

  function ValueOf(c: char): Option<Sextet> {
    if 'A' <= c <= 'Z' then Some(c as int - 'A' as int)
    else if 'a' <= c <= 'z' then Some(c as int - 'a' as int + 26)
    else if '0' <= c <= '9' then Some(c as int - '0' as int + 52)
    else if c == '+' then Some(62)
    else if c == '/' then Some(63)
    else None
  }

  function Encode(bs: seq<Byte>): string {
    if |bs| == 0 then []
    else if |bs| == 1 then [CharOf(bs[0] / 4), CharOf(bs[0] % 4 * 16), '=', '=']
    else if |bs| == 2 then
      [CharOf(bs[0] / 4), CharOf(bs[0] % 4 * 16 + bs[1] / 16), CharOf(bs[1] % 16 * 4), '=']
    else
      [CharOf(bs[0] / 4), CharOf(bs[0] % 4 * 16 + bs[1] / 16),
       CharOf(bs[1] % 16 * 4 + bs[2] / 64), CharOf(bs[2] % 64)] + Encode(bs[3..])
  }

  // The scan: `quad` characters of the current group were read, `left` holds
  // the bits not yet written, `pads` counts padding since the last character.
  // None is binascii.Error.
  function Scan(s: string, quad: nat, left: nat, pads: nat): Option<seq<Byte>>
    requires quad < 4
    requires (quad == 1 ==> left < 64) && (quad == 2 ==> left < 16) && (quad == 3 ==> left < 4)
  {
    if s == [] then (if quad != 0 then None else Some([]))
    else if s[0] == '=' then
      if quad < 2 then Scan(s[1..], quad, left, pads)
      else if quad + pads + 1 >= 4 then Some([])
      else Scan(s[1..], quad, left, pads + 1)
    else match ValueOf(s[0])
      case None => Scan(s[1..], quad, left, pads)
      case Some(v) =>
        if quad == 0 then Scan(s[1..], 1, v, 0)
        else if quad == 1 then Emit(left * 4 + v / 16, Scan(s[1..], 2, v % 16, 0))
        else if quad == 2 then Emit(left * 16 + v / 4, Scan(s[1..], 3, v % 4, 0))
        else Emit(left * 64 + v, Scan(s[1..], 0, 0, 0))
  }

  function Emit(b: Byte, rest: Option<seq<Byte>>): Option<seq<Byte>> {
    if rest.Some? then Some([b] + rest.value) else None
  }

  function Decode(s: string): Option<seq<Byte>> {
    Scan(s, 0, 0, 0)
  }

  // The alphabet, by code.
  lemma {:induction false} Alphabet(v: Sextet)
    ensures v <= 25 ==> CharOf(v) as int == 65 + v
    ensures 26 <= v <= 51 ==> CharOf(v) as int == 97 + (v - 26)
    ensures 52 <= v <= 61 ==> CharOf(v) as int == 48 + (v - 52)
    ensures v == 62 ==> CharOf(v) as int == 43
    ensures v == 63 ==> CharOf(v) as int == 47
  {
  }

  // Every other character is foreign.
  lemma {:induction false} Foreign(c: char)
    ensures ValueOf(c).Some? <==> exists v: Sextet :: CharOf(v) == c
    ensures ValueOf(c).Some? ==> CharOf(ValueOf(c).value) == c
  {
    if ValueOf(c).Some? {
      assert CharOf(ValueOf(c).value) == c;
    }
    forall v: Sextet ensures ValueOf(CharOf(v)) == Some(v) {
      CharRoundTrip(v);
    }
  }

  lemma {:induction false} CharRoundTrip(v: Sextet)
    ensures ValueOf(CharOf(v)) == Some(v) && CharOf(v) != '=' && CharOf(v) != '$' && CharOf(v) < 128 as char
  {
  }

  lemma {:induction false} ScanQuad(v0: Sextet, v1: Sextet, v2: Sextet, v3: Sextet, rest: string, left: nat)
    ensures Scan([CharOf(v0), CharOf(v1), CharOf(v2), CharOf(v3)] + rest, 0, left, 0)
         == Emit(v0 * 4 + v1 / 16, Emit(v1 % 16 * 16 + v2 / 4, Emit(v2 % 4 * 64 + v3, Scan(rest, 0, 0, 0))))
  {
    CharRoundTrip(v0);
    CharRoundTrip(v1);
    CharRoundTrip(v2);
    CharRoundTrip(v3);
    var s3 := [CharOf(v3)] + rest;
    var s2 := [CharOf(v2)] + s3;
    var s1 := [CharOf(v1)] + s2;
    var s0 := [CharOf(v0)] + s1;
    assert s0 == [CharOf(v0), CharOf(v1), CharOf(v2), CharOf(v3)] + rest;
    assert s0[1..] == s1 && s1[1..] == s2 && s2[1..] == s3 && s3[1..] == rest;
    assert Scan(s3, 3, v2 % 4, 0) == Emit(v2 % 4 * 64 + v3, Scan(rest, 0, 0, 0));
    assert Scan(s2, 2, v1 % 16, 0) == Emit(v1 % 16 * 16 + v2 / 4, Scan(s3, 3, v2 % 4, 0));
    assert Scan(s1, 1, v0, 0) == Emit(v0 * 4 + v1 / 16, Scan(s2, 2, v1 % 16, 0));
  }

  lemma {:induction false} EmitLast(a: Byte, b: Byte)
    ensures Emit(b, Some([])) == Some([b]) && Emit(a, Some([b])) == Some([a, b])
  {
    assert [b] + [] == [b] && [a] + [b] == [a, b];
  }

  lemma {:induction false} ScanTwo(v0: Sextet, v1: Sextet)
    ensures Decode([CharOf(v0), CharOf(v1), '=', '=']) == Some([v0 * 4 + v1 / 16])
  {
    CharRoundTrip(v0);
    CharRoundTrip(v1);
    var s0 := [CharOf(v0), CharOf(v1), '=', '='];
    var s1, s2, s3 := s0[1..], s0[1..][1..], s0[1..][1..][1..];
    assert s2 == ['=', '='] && s3 == ['='];
    assert Scan(s3, 2, v1 % 16, 1) == Some([]);
    assert Scan(s2, 2, v1 % 16, 0) == Some([]);
    EmitLast(0, v0 * 4 + v1 / 16);
    assert Scan(s1, 1, v0, 0) == Some([v0 * 4 + v1 / 16]);
  }

  lemma {:induction false} ScanThree(v0: Sextet, v1: Sextet, v2: Sextet)
    ensures Decode([CharOf(v0), CharOf(v1), CharOf(v2), '=']) == Some([v0 * 4 + v1 / 16, v1 % 16 * 16 + v2 / 4])
  {
    CharRoundTrip(v0);
    CharRoundTrip(v1);
    CharRoundTrip(v2);
    var s0 := [CharOf(v0), CharOf(v1), CharOf(v2), '='];
    var s1, s2, s3 := s0[1..], s0[1..][1..], s0[1..][1..][1..];
    assert s3 == ['='];
    assert Scan(s3, 3, v2 % 4, 0) == Some([]);
    EmitLast(v0 * 4 + v1 / 16, v1 % 16 * 16 + v2 / 4);
    assert Scan(s2, 2, v1 % 16, 0) == Some([v1 % 16 * 16 + v2 / 4]);
    assert Scan(s1, 1, v0, 0) == Some([v0 * 4 + v1 / 16, v1 % 16 * 16 + v2 / 4]);
  }

  lemma {:induction false} Regroup(b0: Byte, b1: Byte, b2: Byte)
    ensures var v0, v1, v2, v3 := b0 / 4, b0 % 4 * 16 + b1 / 16, b1 % 16 * 4 + b2 / 64, b2 % 64;
            && v0 * 4 + v1 / 16 == b0 && v1 % 16 * 16 + v2 / 4 == b1 && v2 % 4 * 64 + v3 == b2
  {
  }

  lemma {:induction false} EmitThree(a: Byte, b: Byte, c: Byte, rest: seq<Byte>)
    ensures Emit(a, Emit(b, Emit(c, Some(rest)))) == Some([a, b, c] + rest)
  {
    assert [a] + ([b] + ([c] + rest)) == [a, b, c] + rest;
  }

  // Decoding what was encoded gives the bytes back, for every byte string.
  lemma {:induction false} RoundTrip(bs: seq<Byte>)
    ensures Decode(Encode(bs)) == Some(bs)
  {
    if |bs| == 0 {
      assert bs == [];
    } else if |bs| == 1 {
      Regroup(bs[0], 0, 0);
      ScanTwo(bs[0] / 4, bs[0] % 4 * 16);
      assert bs == [bs[0]];
    } else if |bs| == 2 {
      Regroup(bs[0], bs[1], 0);
      ScanThree(bs[0] / 4, bs[0] % 4 * 16 + bs[1] / 16, bs[1] % 16 * 4);
      assert bs == [bs[0], bs[1]];
    } else {
      RoundTrip(bs[3..]);
      RoundTripGroup(bs[0], bs[1], bs[2], bs[3..]);
      assert bs == [bs[0], bs[1], bs[2]] + bs[3..];
    }
  }

  lemma {:induction false} RoundTripGroup(b0: Byte, b1: Byte, b2: Byte, rest: seq<Byte>)
    requires Decode(Encode(rest)) == Some(rest)
    ensures Decode(Encode([b0, b1, b2] + rest)) == Some([b0, b1, b2] + rest)
  {
    var bs := [b0, b1, b2] + rest;
    assert bs[3..] == rest;
    Regroup(b0, b1, b2);
    ScanQuad(b0 / 4, b0 % 4 * 16 + b1 / 16, b1 % 16 * 4 + b2 / 64, b2 % 64, Encode(rest), 0);
    EmitThree(b0, b1, b2, rest);
  }

  // The decoder skips foreign characters wherever they stand.
  lemma {:induction false} ScanSkips(a: string, c: char, b: string, quad: nat, left: nat, pads: nat)
    requires quad < 4
    requires (quad == 1 ==> left < 64) && (quad == 2 ==> left < 16) && (quad == 3 ==> left < 4)
    requires ValueOf(c) == None && c != '='
    ensures Scan(a + [c] + b, quad, left, pads) == Scan(a + b, quad, left, pads)
    decreases |a|
  {
    var s, t := a + [c] + b, a + b;
    if a == [] {
      assert s[1..] == b && t == b;
    } else {
      assert s[0] == t[0] == a[0] && s[1..] == a[1..] + [c] + b && t[1..] == a[1..] + b;
      if a[0] == '=' {
        if quad < 2 {
          ScanSkips(a[1..], c, b, quad, left, pads);
        } else if quad + pads + 1 < 4 {
          ScanSkips(a[1..], c, b, quad, left, pads + 1);
        }
      } else {
        match ValueOf(a[0])
        case None => ScanSkips(a[1..], c, b, quad, left, pads);
        case Some(v) =>
          if quad == 0 { ScanSkips(a[1..], c, b, 1, v, 0); }
          else if quad == 1 { ScanSkips(a[1..], c, b, 2, v % 16, 0); }
          else if quad == 2 { ScanSkips(a[1..], c, b, 3, v % 4, 0); }
          else { ScanSkips(a[1..], c, b, 0, 0, 0); }
      }
    }
  }

  lemma {:induction false} DecodeSkips(a: string, c: char, b: string)
    requires ValueOf(c) == None && c != '='
    ensures Decode(a + [c] + b) == Decode(a + b)
  {
    ScanSkips(a, c, b, 0, 0, 0);
  }

  // A last group that lacks a character or its padding is an error.
  lemma {:induction false} Unfinished(v0: Sextet, v1: Sextet, v2: Sextet)
    ensures Decode([CharOf(v0)]) == None && Decode([CharOf(v0), CharOf(v1)]) == None
    ensures Decode([CharOf(v0), CharOf(v1), CharOf(v2)]) == None
    ensures Decode([CharOf(v0), CharOf(v1), '=']) == None
  {
    CharRoundTrip(v0);
    CharRoundTrip(v1);
    CharRoundTrip(v2);
    var one := [CharOf(v0)];
    assert one[1..] == [] && Scan(one[1..], 1, v0, 0) == None;
    assert Scan(one, 0, 0, 0) == None;
    var two := [CharOf(v0), CharOf(v1)];
    assert two[1..] == [CharOf(v1)] && two[1..][1..] == [] && Scan(two[1..][1..], 2, v1 % 16, 0) == None;
    assert Scan(two[1..], 1, v0, 0) == None;
    var three := [CharOf(v0), CharOf(v1), CharOf(v2)];
    assert three[1..] == [CharOf(v1), CharOf(v2)] && three[1..][1..] == [CharOf(v2)] && three[1..][1..][1..] == [];
    assert Scan(three[1..][1..], 2, v1 % 16, 0) == None;
    assert Scan(three[1..], 1, v0, 0) == None;
    var padded := [CharOf(v0), CharOf(v1), '='];
    assert padded[1..] == [CharOf(v1), '='] && padded[1..][1..] == ['='] && padded[1..][1..][1..] == [];
    assert Scan(padded[1..][1..], 2, v1 % 16, 0) == None;
    assert Scan(padded[1..], 1, v0, 0) == None;
  }

  // The encoder writes ASCII only, and never a '$'.
  lemma {:induction false} EncodeAlphabet(bs: seq<Byte>)
    ensures forall i :: 0 <= i < |Encode(bs)| ==> Encode(bs)[i] != '$' && Encode(bs)[i] < 128 as char
  {
    forall v: Sextet ensures CharOf(v) != '$' && CharOf(v) < 128 as char {
      CharRoundTrip(v);
    }
    if |bs| >= 3 {
      EncodeAlphabet(bs[3..]);
    }
  }
}
