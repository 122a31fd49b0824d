/** Unpadded base64url, section 5 of RFC 4648, with the decoder's leniency about line breaks and spare bits. */
module Base64Url {
  import opened Prelude

  type byte = b: int | 0 <= b < 256

  type sextet = s: int | 0 <= s < 64

  function Symbol(s: sextet): char {
    if s < 26 then 'A' + s as char
    else if s < 52 then 'a' + (s - 26) as char
    else if s < 62 then '0' + (s - 52) as char
    else if s == 62 then '-'
    else '_'
  }

  function Value(c: char): Option<sextet> {
    if 'A' <= c <= 'Z' then Some(c as int - 'A' as int)
    else if 'a' <= c <= 'z' then Some(c as int - 'a' as int + 26)
    else if '0' <= c <= '9' then Some(c as int - '0' as int + 52)
    else if c == '-' then Some(62)
    else if c == '_' then Some(63)
    else None
  }

  lemma SymbolValue(s: sextet)
    ensures Value(Symbol(s)) == Some(s)
    ensures Symbol(s) != '\n' && Symbol(s) != '\r'
  {
  }

  /** The alphabet of section 5 of RFC 4648. */
  lemma SymbolIsUrlSafe(s: sextet)
    ensures var c := Symbol(s);
            'A' <= c <= 'Z' || 'a' <= c <= 'z' || '0' <= c <= '9' || c == '-' || c == '_'
    ensures s == 0 ==> Symbol(s) == 'A'
    ensures s == 26 ==> Symbol(s) == 'a'
    ensures s == 52 ==> Symbol(s) == '0'
    ensures s == 62 ==> Symbol(s) == '-'
    ensures s == 63 ==> Symbol(s) == '_'
  {
  }

  // ---- Bytes and sextets ----

  function Split(bytes: seq<byte>): seq<sextet> {
    if bytes == [] then []
    else if |bytes| == 1 then [bytes[0] / 4, (bytes[0] % 4) * 16]
    else if |bytes| == 2 then [bytes[0] / 4, (bytes[0] % 4) * 16 + bytes[1] / 16, (bytes[1] % 16) * 4]
    else
      [bytes[0] / 4, (bytes[0] % 4) * 16 + bytes[1] / 16, (bytes[1] % 16) * 4 + bytes[2] / 64, bytes[2] % 64]
      + Split(bytes[3..])
  }

  /** A single leftover sextet is an error; spare bits are not looked at. */
  function Join(sextets: seq<sextet>): Option<seq<byte>> {
    if sextets == [] then Some([])
    else if |sextets| == 1 then None
    else
      var a: byte := (sextets[0] as int) * 4 + sextets[1] as int / 16;
      if |sextets| == 2 then Some([a])
      else
        var b: byte := (sextets[1] as int % 16) * 16 + sextets[2] as int / 4;
        if |sextets| == 3 then Some([a, b])
        else
          var c: byte := (sextets[2] as int % 4) * 64 + sextets[3] as int;
          match Join(sextets[4..])
          case None => None
          case Some(rest) => Some([a, b, c] + rest)
  }

  /** Three bytes come back from their four sextets. */
  lemma Regroup(x: byte, y: byte, z: byte)
    ensures var p, q, r, s := x / 4, (x % 4) * 16 + y / 16, (y % 16) * 4 + z / 64, z % 64;
            p * 4 + q / 16 == x && (q % 16) * 16 + r / 4 == y && (r % 4) * 64 + s == z
  {
  }

  lemma {:induction false} JoinSplit(bytes: seq<byte>)
    ensures Join(Split(bytes)) == Some(bytes)
  {
    if |bytes| == 1 {
      assert Join(Split(bytes)) == Some([bytes[0]]) && bytes == [bytes[0]];
    } else if |bytes| == 2 {
      assert Join(Split(bytes)) == Some([bytes[0], bytes[1]]) && bytes == [bytes[0], bytes[1]];
    } else if |bytes| >= 3 {
      JoinSplit(bytes[3..]);
      Regroup(bytes[0], bytes[1], bytes[2]);
      var sextets := Split(bytes);
      assert sextets[4..] == Split(bytes[3..]);
      assert Join(sextets) == Some([bytes[0], bytes[1], bytes[2]] + bytes[3..]);
      assert bytes == [bytes[0], bytes[1], bytes[2]] + bytes[3..];
    }
  }

  // ---- Text ----

  function Symbols(sextets: seq<sextet>): string {
    if sextets == [] then "" else [Symbol(sextets[0])] + Symbols(sextets[1..])
  }

  /** Line breaks are skipped; any other foreign character is an error. */
  function Values(text: string): Option<seq<sextet>> {
    if text == "" then Some([])
    else if text[0] == '\n' || text[0] == '\r' then Values(text[1..])
    else
      match Value(text[0])
      case None => None
      case Some(v) =>
        match Values(text[1..])
        case None => None
        case Some(rest) => Some([v] + rest)
  }

  lemma {:induction false} ValuesSymbols(sextets: seq<sextet>)
    ensures Values(Symbols(sextets)) == Some(sextets)
  {
    if sextets != [] {
      SymbolValue(sextets[0]);
      ValuesSymbols(sextets[1..]);
      assert Symbols(sextets)[1..] == Symbols(sextets[1..]);
      assert Symbols(sextets)[0] == Symbol(sextets[0]);
      assert [sextets[0]] + sextets[1..] == sextets;
    }
  }

  function Encode(bytes: seq<byte>): string { Symbols(Split(bytes)) }

  function Decode(text: string): Option<seq<byte>> {
    match Values(text)
    case None => None
    case Some(sextets) => Join(sextets)
  }

  lemma RoundTrip(bytes: seq<byte>)
    ensures Decode(Encode(bytes)) == Some(bytes)
  {
    JoinSplit(bytes);
    ValuesSymbols(Split(bytes));
  }

  /** Nothing but the empty input has an empty encoding. */
  /** Test vectors of section 10 of RFC 4648, without the padding. */
  lemma KnownTexts()
    ensures Encode([102]) == "Zg" && Encode([102, 111]) == "Zm8" && Encode([102, 111, 111]) == "Zm9v"
  {
    assert Split([]) == [];
    assert Split([102, 111, 111]) == [25, 38, 61, 47] by {
      assert [102, 111, 111][3..] == [];
    }
    assert Split([102]) == [25, 32] && Split([102, 111]) == [25, 38, 60];
    assert Symbols([25, 32]) == "Zg" && Symbols([25, 38, 60]) == "Zm8" && Symbols([25, 38, 61, 47]) == "Zm9v";
  }

  lemma EncodedIsNonempty(bytes: seq<byte>)
    ensures Encode(bytes) == "" <==> bytes == []
  {
    assert bytes != [] ==> |Split(bytes)| >= 2;
  }
}
