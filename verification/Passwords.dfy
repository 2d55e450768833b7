// app/core/passwords.py: the stored password record.
module Passwords {
  import opened Wrappers
  import opened Text
  import opened Base64

  // PBKDF2-HMAC-SHA256 (section 5.2 of RFC 8018), left uninterpreted: any
  // function of password, salt and iteration count.
  type Kdf = (string, seq<Byte>, int) -> seq<Byte>

  const MAX_LONG := 0x7fff_ffff_ffff_ffff

  // hashlib raises outside this range.
  predicate CountAccepted(iterations: int) {
    1 <= iterations <= MAX_LONG
  }

  const SCHEME := "pbkdf2_sha256"

  datatype Record = Record(iterations: int, salt: seq<Byte>, digest: seq<Byte>)

  function Print(r: Record): string {
    SCHEME + "$" + IntToString(r.iterations) + "$" + Encode(r.salt) + "$" + Encode(r.digest)
  }

  // None is an exception from hashlib.
  function HashPassword(kdf: Kdf, plain: string, salt: seq<Byte>, iterations: int): Option<string> {
    if CountAccepted(iterations)
    then Some(Print(Record(iterations, salt, kdf(plain, salt, iterations))))
    else None
  }

  predicate StartsWith(s: string, prefix: string) {
    |prefix| <= |s| && forall i :: 0 <= i < |prefix| ==> s[i] == prefix[i]
  }

  function B64Decode(s: string): Option<seq<Byte>> {
    if IsAscii(s) then Decode(s) else None
  }

  // The parsing half of verify_password; None is `return False`.
  function Parse(stored: string): Option<Record> {
    if !StartsWith(stored, SCHEME + "$") then None
    else
      var parts := Split(stored, '$');
      if |parts| != 4 then None
      else
        match ParseInt(parts[1])
        case None => None
        case Some(iterations) =>
          match (B64Decode(parts[2]), B64Decode(parts[3]))
          case (Some(salt), Some(want)) => Some(Record(iterations, salt, want))
          case _ => None
  }

  datatype Verdict = Accepted | Rejected | Raised

  function VerifyPassword(kdf: Kdf, plain: string, stored: string): Verdict {
    if plain == [] || stored == [] then Rejected
    else
      match Parse(stored)
      case None => Rejected
      case Some(r) =>
        if !CountAccepted(r.iterations) then Raised
        else if kdf(plain, r.salt, r.iterations) == r.digest then Accepted
        else Rejected
  }

  lemma {:induction false} SplitFour(a: string, b: string, c: string, d: string, sep: char)
    requires sep !in a && sep !in b && sep !in c && sep !in d
    ensures Split(a + [sep] + (b + [sep] + (c + [sep] + d)), sep) == [a, b, c, d]
  {
    SplitHead(a, b + [sep] + (c + [sep] + d), sep);
    SplitHead(b, c + [sep] + d, sep);
    SplitHead(c, d, sep);
    SplitLast(d, sep);
  }

  lemma {:induction false} NoSeparator(i: int)
    ensures '$' !in IntToString(i)
  {
    DigitsAreDigits(if i < 0 then -i else i);
  }

  // A printed record splits into its four fields.
  lemma {:induction false} PrintedFields(r: Record)
    ensures Split(Print(r), '$') == [SCHEME, IntToString(r.iterations), Encode(r.salt), Encode(r.digest)]
  {
    var count, salt, digest := IntToString(r.iterations), Encode(r.salt), Encode(r.digest);
    NoSeparator(r.iterations);
    EncodeAlphabet(r.salt);
    EncodeAlphabet(r.digest);
    SplitFour(SCHEME, count, salt, digest, '$');
    assert Print(r) == SCHEME + ['$'] + (count + ['$'] + (salt + ['$'] + digest));
  }

  lemma {:induction false} CountRoundTrip(iterations: int)
    requires CountAccepted(iterations)
    ensures ParseInt(IntToString(iterations)) == Some(iterations)
  {
    assert Pow10(19) == 10_000_000_000_000_000_000 by {
      assert Pow10(5) == 100_000;
      assert Pow10(10) == 10_000_000_000;
      assert Pow10(15) == 1_000_000_000_000_000;
    }
    DigitsLength(iterations, 19);
    IntRoundTrip(iterations);
  }

  lemma {:induction false} BytesRoundTrip(bs: seq<Byte>)
    ensures B64Decode(Encode(bs)) == Some(bs)
  {
    RoundTrip(bs);
    EncodeAlphabet(bs);
  }

  lemma {:induction false} PrintedScheme(r: Record)
    ensures StartsWith(Print(r), SCHEME + "$")
  {
    var rest := IntToString(r.iterations) + "$" + Encode(r.salt) + "$" + Encode(r.digest);
    assert Print(r) == SCHEME + "$" + rest;
  }

  // Parsing what was printed recovers every field exactly.
  lemma {:induction false} RecordRoundTrip(r: Record)
    requires CountAccepted(r.iterations)
    ensures Parse(Print(r)) == Some(r)
  {
    PrintedScheme(r);
    PrintedFields(r);
    CountRoundTrip(r.iterations);
    BytesRoundTrip(r.salt);
    BytesRoundTrip(r.digest);
  }

  // Verification against a fresh record accepts exactly the non-empty passwords
  // that derive the same key; in particular the password itself.
  lemma {:induction false} VerifyAfterHash(
    kdf: Kdf, plain: string, salt: seq<Byte>, iterations: int, attempt: string, stored: string)
    requires HashPassword(kdf, plain, salt, iterations) == Some(stored)
    ensures VerifyPassword(kdf, attempt, stored) ==
              if attempt != [] && kdf(attempt, salt, iterations) == kdf(plain, salt, iterations)
              then Accepted else Rejected
  {
    RecordRoundTrip(Record(iterations, salt, kdf(plain, salt, iterations)));
  }

  // A hash is produced exactly for iteration counts from 1 to 2^63 - 1, the
  // default among them, and its password verifies against it.
  lemma {:induction false} HashProduced(kdf: Kdf, plain: string, salt: seq<Byte>, iterations: int)
    ensures 1 <= iterations <= 0x7fff_ffff_ffff_ffff <==> HashPassword(kdf, plain, salt, iterations).Some?
    ensures 1 <= iterations <= 0x7fff_ffff_ffff_ffff && plain != [] ==>
              VerifyPassword(kdf, plain, HashPassword(kdf, plain, salt, iterations).value) == Accepted
    ensures HashPassword(kdf, plain, salt, 310_000).Some?
  {
    if 1 <= iterations <= 0x7fff_ffff_ffff_ffff {
      VerifyAfterHash(kdf, plain, salt, iterations, plain, HashPassword(kdf, plain, salt, iterations).value);
    }
  }

  // What is stored, character for character.
  lemma {:induction false} StoredText(kdf: Kdf, plain: string, salt: seq<Byte>, iterations: int)
    requires 1 <= iterations <= 0x7fff_ffff_ffff_ffff
    ensures HashPassword(kdf, plain, salt, iterations)
         == Some("pbkdf2_sha256" + "$" + IntToString(iterations) + "$" + Encode(salt) + "$"
                 + Encode(kdf(plain, salt, iterations)))
  {
  }

  // The default count prints as it is written.
  lemma {:induction false} DefaultCountText()
    ensures IntToString(310_000) == "310000" && IntToString(-7) == "-7"
  {
    assert Digits(31) == Digits(3) + "1" == "31";
    assert Digits(310) == "310" && Digits(3100) == "3100" && Digits(31000) == "31000";
  }

  // Records that are not of this form are rejected: another scheme, or a number
  // of separators other than three.
  lemma {:induction false} ForeignIsRejected(kdf: Kdf, plain: string, stored: string)
    ensures plain == [] || stored == [] ==> VerifyPassword(kdf, plain, stored) == Rejected
    ensures !("pbkdf2_sha256$" <= stored) ==> VerifyPassword(kdf, plain, stored) == Rejected
    ensures CountChar(stored, '$') != 3 ==> VerifyPassword(kdf, plain, stored) == Rejected
  {
    SplitCounts(stored, '$');
    if StartsWith(stored, SCHEME + "$") {
      assert SCHEME + "$" == "pbkdf2_sha256$";
      assert stored[..14] == "pbkdf2_sha256$";
    }
  }

  // A count that is no integer, text that is no base64 or has a character beyond
  // ASCII is rejected as well; an integer outside the range raises.
  lemma {:induction false} BadFields(kdf: Kdf, plain: string, count: string, salt: string, digest: string)
    requires plain != [] && '$' !in count && '$' !in salt && '$' !in digest
    ensures var verdict := VerifyPassword(kdf, plain, SCHEME + "$" + count + "$" + salt + "$" + digest);
            && (ParseInt(count) == None ==> verdict == Rejected)
            && (B64Decode(salt) == None || B64Decode(digest) == None ==> verdict == Rejected)
            && ((exists i :: 0 <= i < |salt| && salt[i] as int >= 128) ==> verdict == Rejected)
            && ((exists i :: 0 <= i < |digest| && digest[i] as int >= 128) ==> verdict == Rejected)
            && (verdict == Raised <==>
                  && ParseInt(count).Some? && B64Decode(salt).Some? && B64Decode(digest).Some?
                  && !(1 <= ParseInt(count).value <= 0x7fff_ffff_ffff_ffff))
  {
    SplitFour(SCHEME, count, salt, digest, '$');
    var stored := SCHEME + "$" + count + "$" + salt + "$" + digest;
    assert stored == SCHEME + ['$'] + (count + ['$'] + (salt + ['$'] + digest));
  }

  // The printed form determines the record: distinct records never collide.
  lemma {:induction false} PrintInjective(a: Record, b: Record)
    requires CountAccepted(a.iterations) && CountAccepted(b.iterations) && Print(a) == Print(b)
    ensures a == b
  {
    RecordRoundTrip(a);
    RecordRoundTrip(b);
  }
}
