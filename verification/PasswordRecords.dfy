/**
  Stored password records: fields between dollar signs, with salt and key in base64url without padding
  (section 5 of RFC 4648). The key derivation is a parameter.
 */
module PasswordRecords {
  import opened Wrappers
  import opened FileReferences

  type Byte = x: int | 0 <= x < 256
  type Sextet = x: int | 0 <= x < 64

  // ----- Base64url -----

  function CharOf(value: Sextet): char {
    if value < 26 then 'A' + value as char
    else if value < 52 then 'a' + (value - 26) as char
    else if value < 62 then '0' + (value - 52) as char
    else if value == 62 then '-' else '_'
  }

  function ValueOf(c: char): Option<Sextet> {
    if 'A' <= c <= 'Z' then Some((c - 'A') as int)
    else if 'a' <= c <= 'z' then Some((c - 'a') as int + 26)
    else if '0' <= c <= '9' then Some((c - '0') as int + 52)
    else if c == '-' then Some(62)
    else if c == '_' then Some(63)
    else None
  }

  lemma ValueOfChar(value: Sextet)
    ensures ValueOf(CharOf(value)) == Some(value) && CharOf(value) != '$'
  {
  }

  function Encode(raw: seq<Byte>): string {
    if raw == [] then ""
    else if |raw| == 1 then [CharOf(raw[0] / 4), CharOf(raw[0] % 4 * 16)]
    else if |raw| == 2 then [CharOf(raw[0] / 4), CharOf(raw[0] % 4 * 16 + raw[1] / 16), CharOf(raw[1] % 16 * 4)]
    else [CharOf(raw[0] / 4), CharOf(raw[0] % 4 * 16 + raw[1] / 16), CharOf(raw[1] % 16 * 4 + raw[2] / 64), CharOf(raw[2] % 64)]
         + Encode(raw[3..])
  }

  function FirstByte(a: int, b: int): int { a * 4 + b / 16 }
  function SecondByte(b: int, c: int): int { b % 16 * 16 + c / 4 }
  function ThirdByte(c: int, d: int): int { c % 4 * 64 + d }

  /** The bytes of some sextets; low bits that fill no byte are dropped, and one sextet alone is an error. */
  function Bytes(values: seq<Sextet>): Option<seq<Byte>> {
    if values == [] then Some([])
    else if |values| == 1 then None
    else if |values| == 2 then Some([FirstByte(values[0], values[1])])
    else if |values| == 3 then Some([FirstByte(values[0], values[1]), SecondByte(values[1], values[2])])
    else
      var rest := Bytes(values[4..]);
      if rest.None? then None
      else
        Some([FirstByte(values[0], values[1]), SecondByte(values[1], values[2]), ThirdByte(values[2], values[3])] + rest.value)
  }

  function Values(text: string): Option<seq<Sextet>> {
    if text == "" then Some([])
    else
      var value, rest := ValueOf(text[0]), Values(text[1..]);
      if value.None? || rest.None? then None else Some([value.value] + rest.value)
  }

  /** What the runtime makes of texts outside the alphabet, and of numbers that are not plain digits. */
  datatype Leniency = Leniency(bytes: string -> Option<seq<Byte>>, number: string -> Option<int>)

  function Decode(text: string, leniency: Leniency): Option<seq<Byte>> {
    var values := Values(text);
    if values.Some? then Bytes(values.value) else leniency.bytes(text)
  }

  function Sextets(raw: seq<Byte>): seq<Sextet> {
    if raw == [] then []
    else if |raw| == 1 then [raw[0] / 4, raw[0] % 4 * 16]
    else if |raw| == 2 then [raw[0] / 4, raw[0] % 4 * 16 + raw[1] / 16, raw[1] % 16 * 4]
    else [raw[0] / 4, raw[0] % 4 * 16 + raw[1] / 16, raw[1] % 16 * 4 + raw[2] / 64, raw[2] % 64] + Sextets(raw[3..])
  }

  function Chars(values: seq<Sextet>): string {
    seq(|values|, i requires 0 <= i < |values| => CharOf(values[i]))
  }

  lemma {:induction false} EncodeWritesSextets(raw: seq<Byte>)
    ensures Encode(raw) == Chars(Sextets(raw))
  {
    hide CharOf;
    if |raw| > 2 {
      EncodeWritesSextets(raw[3..]);
    }
  }

  lemma {:induction false} ValuesOfChars(values: seq<Sextet>)
    ensures Values(Chars(values)) == Some(values) && '$' !in Chars(values)
  {
    hide CharOf, ValueOf;
    if values == [] {
      assert Chars(values) == "";
    } else {
      ValuesOfChars(values[1..]);
      ValueOfChar(values[0]);
      var text := Chars(values);
      assert text[1..] == Chars(values[1..]);
      assert ValueOf(text[0]) == Some(values[0]) && Values(text[1..]) == Some(values[1..]);
      assert [values[0]] + values[1..] == values;
    }
  }

  lemma ThreeBytes(raw: seq<Byte>)
    ensures |raw| == 1 ==> FirstByte(raw[0] / 4, raw[0] % 4 * 16) == raw[0]
    ensures |raw| >= 2 ==> FirstByte(raw[0] / 4, raw[0] % 4 * 16 + raw[1] / 16) == raw[0]
    ensures |raw| == 2 ==> SecondByte(raw[0] % 4 * 16 + raw[1] / 16, raw[1] % 16 * 4) == raw[1]
    ensures |raw| >= 3 ==> SecondByte(raw[0] % 4 * 16 + raw[1] / 16, raw[1] % 16 * 4 + raw[2] / 64) == raw[1]
    ensures |raw| >= 3 ==> ThirdByte(raw[1] % 16 * 4 + raw[2] / 64, raw[2] % 64) == raw[2]
  {
  }

  lemma {:induction false} BytesOfSextets(raw: seq<Byte>)
    ensures Bytes(Sextets(raw)) == Some(raw)
  {
    ThreeBytes(raw);
    hide FirstByte, SecondByte, ThirdByte;
    var values := Sextets(raw);
    if |raw| == 1 {
      assert |values| == 2 && Bytes(values) == Some([raw[0]]) && raw == [raw[0]];
    } else if |raw| == 2 {
      assert |values| == 3 && Bytes(values) == Some([raw[0], raw[1]]) && raw == [raw[0], raw[1]];
    } else if |raw| > 2 {
      BytesOfSextets(raw[3..]);
      assert values[4..] == Sextets(raw[3..]) && |values| >= 4;
      assert raw == [raw[0], raw[1], raw[2]] + raw[3..];
    }
  }

  /** Decoding gives back every sequence of bytes, and no encoding holds the separator of records. */
  lemma DecodeEncode(raw: seq<Byte>, leniency: Leniency)
    ensures Decode(Encode(raw), leniency) == Some(raw) && '$' !in Encode(raw)
  {
    EncodeWritesSextets(raw);
    ValuesOfChars(Sextets(raw));
    BytesOfSextets(raw);
  }

  // ----- Numbers -----

  function Digit(d: int): char
    requires 0 <= d < 10
  {
    '0' + d as char
  }

  function Decimal(n: nat): string {
    if n < 10 then [Digit(n)] else Decimal(n / 10) + [Digit(n % 10)]
  }

  function Digits(text: string): Option<nat> {
    if text == "" then Some(0)
    else
      var last, rest := text[|text| - 1], Digits(text[..|text| - 1]);
      if rest.None? || !('0' <= last <= '9') then None else Some(rest.value * 10 + (last - '0') as int)
  }

  function Number(text: string, leniency: Leniency): Option<int> {
    if text != "" && Digits(text).Some? then Some(Digits(text).value) else leniency.number(text)
  }

  lemma {:induction false} NumberOfDecimal(n: nat, leniency: Leniency)
    ensures Number(Decimal(n), leniency) == Some(n) && Digits(Decimal(n)) == Some(n) && '$' !in Decimal(n) && Decimal(n) != ""
  {
    if n < 10 {
      assert Decimal(n)[..0] == "" && Digits("") == Some(0);
      assert Digits(Decimal(n)) == Some(n);
    } else {
      NumberOfDecimal(n / 10, leniency);
      assert Decimal(n)[..|Decimal(n)| - 1] == Decimal(n / 10);
    }
  }

  // ----- Records -----

  datatype Cost = Cost(n: int, r: int, p: int)

  /** Password, salt, cost and length of the key; `None` where the derivation refuses its arguments. */
  type Derivation = (string, seq<Byte>, Cost, nat) -> Option<seq<Byte>>

  const COST := Cost(32768, 8, 1)
  const KEY_BYTES: nat := 32

  /** The derivation takes the service's own cost, and keys are as long as asked. */
  ghost predicate Works(scrypt: Derivation) {
    && (forall password, salt :: scrypt(password, salt, COST, KEY_BYTES).Some?)
    && (forall password, salt, cost, length ::
          scrypt(password, salt, cost, length).Some? ==> |scrypt(password, salt, cost, length).value| == length)
  }

  function Fields(salt: seq<Byte>, key: seq<Byte>): seq<string> {
    ["scrypt", Decimal(COST.n), Decimal(COST.r), Decimal(COST.p), Encode(salt), Encode(key)]
  }

  /** The record of a password under a fresh salt; an empty password has none. */
  function HashPassword(scrypt: Derivation, password: string, salt: seq<Byte>): Option<string> {
    if password == "" then None
    else
      match scrypt(password, salt, COST, KEY_BYTES)
      case None => None
      case Some(key) => Some(Join(Fields(salt, key), '$'))
  }

  predicate VerifyPassword(scrypt: Derivation, leniency: Leniency, password: string, stored: Option<string>) {
    && stored.Some? && stored.value != "" && password != ""
    && var fields := Split(stored.value, '$');
       && |fields| == 6 && fields[0] == "scrypt"
       && var salt, key := Decode(fields[4], leniency), Decode(fields[5], leniency);
          var n, r, p := Number(fields[1], leniency), Number(fields[2], leniency), Number(fields[3], leniency);
          && salt.Some? && key.Some? && n.Some? && r.Some? && p.Some?
          && scrypt(password, salt.value, Cost(n.value, r.value, p.value), |key.value|) == key
  }

  lemma FieldsReadBack(salt: seq<Byte>, key: seq<Byte>, leniency: Leniency)
    ensures var stored := Join(Fields(salt, key), '$');
            && stored != "" && Split(stored, '$') == Fields(salt, key)
            && Decode(Encode(salt), leniency) == Some(salt) && Decode(Encode(key), leniency) == Some(key)
            && Number(Decimal(COST.n), leniency) == Some(COST.n)
            && Number(Decimal(COST.r), leniency) == Some(COST.r)
            && Number(Decimal(COST.p), leniency) == Some(COST.p)
  {
    hide Encode, Decode, Decimal, Number, Digits;
    DecodeEncode(salt, leniency);
    DecodeEncode(key, leniency);
    NumberOfDecimal(COST.n, leniency);
    NumberOfDecimal(COST.r, leniency);
    NumberOfDecimal(COST.p, leniency);
    SplitJoin(Fields(salt, key), '$');
  }

  /** A password matches the record of another exactly when it is not empty and derives the same key. */
  lemma VerifyComparesKeys(scrypt: Derivation, leniency: Leniency, password: string, other: string, salt: seq<Byte>)
    requires Works(scrypt) && password != ""
    ensures var stored := HashPassword(scrypt, password, salt);
            && stored.Some?
            && (VerifyPassword(scrypt, leniency, other, stored)
                <==> other != "" && scrypt(other, salt, COST, KEY_BYTES) == scrypt(password, salt, COST, KEY_BYTES))
  {
    hide Encode, Decode, Decimal, Number, Digits, Split, Join;
    var key := scrypt(password, salt, COST, KEY_BYTES).value;
    FieldsReadBack(salt, key, leniency);
  }

  /** Every password matches its own record. */
  lemma VerifyAcceptsOwnRecord(scrypt: Derivation, leniency: Leniency, password: string, salt: seq<Byte>)
    requires Works(scrypt) && password != ""
    ensures VerifyPassword(scrypt, leniency, password, HashPassword(scrypt, password, salt))
  {
    VerifyComparesKeys(scrypt, leniency, password, password, salt);
  }

  // ----- The format, written out -----

  /** The alphabet of section 5 of RFC 4648: upper-case letters, lower-case letters, digits, and two more. */
  lemma CharsAreThoseOfTheAlphabet(value: Sextet)
    ensures value <= 25 ==> CharOf(value) as int == 65 + value
    ensures 26 <= value <= 51 ==> CharOf(value) as int == 97 + (value - 26)
    ensures 52 <= value <= 61 ==> CharOf(value) as int == 48 + (value - 52)
    ensures CharOf(62) == '-' && CharOf(63) == '_'
  {
  }

  /** Three bytes are four sextets of the same number, most significant first; what is left over is filled with zero bits. */
  lemma SextetsAreBigEndian(raw: seq<Byte>)
    requires raw != []
    ensures |raw| >= 3 ==>
              && |Sextets(raw)| == 4 + |Sextets(raw[3..])| && Sextets(raw)[4..] == Sextets(raw[3..])
              && Number3(raw[0], raw[1], raw[2]) == Number4(Sextets(raw)[0], Sextets(raw)[1], Sextets(raw)[2], Sextets(raw)[3])
    ensures |raw| == 2 ==>
              |Sextets(raw)| == 3
              && Number3(raw[0], raw[1], 0) == Number4(Sextets(raw)[0], Sextets(raw)[1], Sextets(raw)[2], 0)
    ensures |raw| == 1 ==>
              |Sextets(raw)| == 2 && Number3(raw[0], 0, 0) == Number4(Sextets(raw)[0], Sextets(raw)[1], 0, 0)
  {
  }

  function Number3(a: int, b: int, c: int): int {
    a * 65536 + b * 256 + c
  }

  function Number4(a: int, b: int, c: int, d: int): int {
    a * 262144 + b * 4096 + c * 64 + d
  }

  lemma ServiceCost()
    ensures Decimal(32768) == "32768" && Decimal(8) == "8" && Decimal(1) == "1"
  {
    assert Decimal(3) == "3";
    assert Decimal(32) == Decimal(3) + "2";
    assert Decimal(327) == Decimal(32) + "7";
    assert Decimal(3276) == Decimal(327) + "6";
    assert Decimal(32768) == Decimal(3276) + "8";
  }

  /** A record names the derivation and its cost, 32768, 8 and 1, and holds the salt and a key of 32 bytes. */
  lemma RecordIs(scrypt: Derivation, password: string, salt: seq<Byte>)
    ensures var key := scrypt(password, salt, Cost(32768, 8, 1), 32);
            HashPassword(scrypt, password, salt)
            == if password == "" || key.None? then None
               else Some("scrypt" + "$" + "32768" + "$" + "8" + "$" + "1" + "$" + Encode(salt) + "$" + Encode(key.value))
  {
    hide Encode, Decimal;
    ServiceCost();
    if password != "" && scrypt(password, salt, COST, KEY_BYTES).Some? {
      JoinSix("scrypt", "32768", "8", "1", Encode(salt), Encode(scrypt(password, salt, COST, KEY_BYTES).value));
    }
  }

  lemma JoinSix(a: string, b: string, c: string, d: string, e: string, f: string)
    ensures Join([a, b, c, d, e, f], '$') == a + "$" + b + "$" + c + "$" + d + "$" + e + "$" + f
  {
    assert [a, b, c, d, e, f][1..] == [b, c, d, e, f] && [b, c, d, e, f][1..] == [c, d, e, f];
    assert [c, d, e, f][1..] == [d, e, f] && [d, e, f][1..] == [e, f] && [e, f][1..] == [f];
    assert Join([f], '$') == f;
    assert Join([e, f], '$') == e + "$" + f;
    assert Join([d, e, f], '$') == d + "$" + Join([e, f], '$');
    assert Join([c, d, e, f], '$') == c + "$" + Join([d, e, f], '$');
    assert Join([b, c, d, e, f], '$') == b + "$" + Join([c, d, e, f], '$');
  }

  // ----- Records of another cost -----

  /** The cost travels with the record, so raising the service's cost keeps older records valid. */
  lemma VerifyUsesRecordedCost(scrypt: Derivation, leniency: Leniency, password: string, n: nat, r: nat, p: nat,
                               salt: seq<Byte>, key: seq<Byte>)
    ensures var stored := Join(["scrypt", Decimal(n), Decimal(r), Decimal(p), Encode(salt), Encode(key)], '$');
            VerifyPassword(scrypt, leniency, password, Some(stored))
            <==> password != "" && scrypt(password, salt, Cost(n, r, p), |key|) == Some(key)
  {
    hide Encode, Decode, Decimal, Number, Digits, Split, Join;
    var fields := ["scrypt", Decimal(n), Decimal(r), Decimal(p), Encode(salt), Encode(key)];
    DecodeEncode(salt, leniency);
    DecodeEncode(key, leniency);
    NumberOfDecimal(n, leniency);
    NumberOfDecimal(r, leniency);
    NumberOfDecimal(p, leniency);
    SplitJoin(fields, '$');
    assert Join(fields, '$') != "" by {
      NotEmpty(fields);
    }
  }

  lemma NotEmpty(fields: seq<string>)
    requires |fields| > 1
    ensures Join(fields, '$') != ""
  {
  }

  /** Without a record, and with one of another shape or another derivation, no password matches. */
  lemma VerifyRefusesOthers(scrypt: Derivation, leniency: Leniency, password: string, stored: Option<string>)
    requires VerifyPassword(scrypt, leniency, password, stored)
    ensures password != "" && stored.Some? && |Split(stored.value, '$')| == 6 && Split(stored.value, '$')[0] == "scrypt"
    ensures var fields := Split(stored.value, '$');
            exists salt, key, n, r, p ::
              && Decode(fields[4], leniency) == Some(salt) && Decode(fields[5], leniency) == Some(key)
              && Number(fields[1], leniency) == Some(n) && Number(fields[2], leniency) == Some(r)
              && Number(fields[3], leniency) == Some(p)
              && scrypt(password, salt, Cost(n, r, p), |key|) == Some(key)
  {
    hide Decode, Number;
    var fields := Split(stored.value, '$');
    assert scrypt(password, Decode(fields[4], leniency).value,
                  Cost(Number(fields[1], leniency).value, Number(fields[2], leniency).value, Number(fields[3], leniency).value),
                  |Decode(fields[5], leniency).value|) == Decode(fields[5], leniency);
  }
}
