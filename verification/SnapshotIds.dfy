/** Hexadecimal snapshot identifiers: the all-or-nothing decoding an rm task starts with. */
module SnapshotIds {
  import opened Prelude

  type Byte = x: int | 0 <= x < 256

  const MAC_SIZE := 32

  /** A full snapshot identifier. */
  type Mac = m: seq<Byte> | |m| == MAC_SIZE witness seq(32, _ => 0)

  predicate IsNilMac(mac: Mac) {
    forall i :: 0 <= i < |mac| ==> mac[i] == 0
  }

  function HexValue(c: char): (d: Option<int>)
    ensures d.Some? ==> 0 <= d.value < 16
  {
    if '0' <= c <= '9' then Some(c as int - '0' as int)
    else if 'a' <= c <= 'f' then Some(c as int - 'a' as int + 10)
    else if 'A' <= c <= 'F' then Some(c as int - 'A' as int + 10)
    else None
  }

  function HexDigit(n: int): char
    requires 0 <= n < 16
  {
    if n < 10 then ('0' as int + n) as char else ('a' as int + n - 10) as char
  }

  /** hex.DecodeString, without telling its two errors apart. */
  function DecodeHex(s: string): (r: Option<seq<Byte>>)
    ensures r.Some? ==> |s| == 2 * |r.value|
  {
    if s == [] then Some([])
    else if |s| == 1 then None
    else
      match (HexValue(s[0]), HexValue(s[1]), DecodeHex(s[2..]))
      case (Some(hi), Some(lo), Some(rest)) => Some([(16 * hi + lo) as Byte] + rest)
      case _ => None
  }

  /** "%x" of a byte string. */
  function FormatHex(bytes: seq<Byte>): string {
    if bytes == [] then ""
    else [HexDigit(bytes[0] / 16), HexDigit(bytes[0] % 16)] + FormatHex(bytes[1..])
  }

  /** Two digits at the head of a text are its first byte. */
  lemma DecodeHead(hi: char, lo: char, rest: string)
    ensures DecodeHex([hi, lo] + rest) ==
      if HexValue(hi).Some? && HexValue(lo).Some? && DecodeHex(rest).Some?
      then Some([16 * HexValue(hi).value + HexValue(lo).value] + DecodeHex(rest).value)
      else None
  {
    assert ([hi, lo] + rest)[2..] == rest;
  }

  lemma DigitOf(n: int)
    requires 0 <= n < 16
    ensures HexValue(HexDigit(n)) == Some(n)
  {
  }

  lemma {:induction false} DecodeFormat(bytes: seq<Byte>)
    ensures DecodeHex(FormatHex(bytes)) == Some(bytes)
  {
    if bytes == [] {
    } else {
      DecodeFormat(bytes[1..]);
      DecodeHead(HexDigit(bytes[0] / 16), HexDigit(bytes[0] % 16), FormatHex(bytes[1..]));
      DigitOf(bytes[0] / 16);
      DigitOf(bytes[0] % 16);
      assert bytes == [bytes[0]] + bytes[1..];
    }
  }

  /** Decoding succeeds on an even number of hexadecimal digits and on nothing else. */
  lemma {:induction false} DecodesIff(s: string)
    ensures DecodeHex(s).Some? <==> |s| % 2 == 0 && forall i :: 0 <= i < |s| ==> HexValue(s[i]).Some?
  {
    if |s| < 2 {
    } else {
      DecodesIff(s[2..]);
      assert forall i :: 2 <= i < |s| ==> s[i] == s[2..][i - 2];
      assert forall i :: 0 <= i < |s| - 2 ==> s[2..][i] == s[i + 2];
    }
  }

  datatype ParseError = Malformed(id: string) | WrongLength(id: string)

  /** The verdict on a single identifier. */
  function ParseOne(id: string): Result<Mac, ParseError> {
    match DecodeHex(id)
    case None => Err(Malformed(id))
    case Some(raw) => if |raw| == MAC_SIZE then Ok(raw) else Err(WrongLength(id))
  }

  /** parseSnapshotIDs: every identifier in order, or the error of the first bad one and nothing else. */
  method ParseSnapshotIds(ids: seq<string>) returns (r: Result<seq<Mac>, ParseError>)
    ensures r.Ok? ==> |r.value| == |ids| && forall i :: 0 <= i < |ids| ==> ParseOne(ids[i]) == Ok(r.value[i])
    ensures r.Err? ==> exists k :: && 0 <= k < |ids| && ParseOne(ids[k]) == Err(r.error)
                                   && forall i :: 0 <= i < k ==> ParseOne(ids[i]).Ok?
  {
    var macs: seq<Mac> := [];
    for i := 0 to |ids|
      invariant |macs| == i
      invariant forall j :: 0 <= j < i ==> ParseOne(ids[j]) == Ok(macs[j])
    {
      match ParseOne(ids[i])
      case Err(e) => return Err(e);
      case Ok(mac) => macs := macs + [mac];
    }
    return Ok(macs);
  }

  /** The identifiers accepted are those of 64 hexadecimal digits, and each MAC has such an identifier. */
  lemma AcceptedIds(id: string, mac: Mac)
    ensures ParseOne(id).Ok? <==> |id| == 64 && forall i :: 0 <= i < |id| ==> HexValue(id[i]).Some?
    ensures ParseOne(FormatHex(mac)) == Ok(mac)
  {
    DecodesIff(id);
    DecodeFormat(mac);
  }

  /** The digit c stands for d, in either case. */
  predicate StandsFor(c: char, d: int) {
    || (0 <= d < 10 && c as int == '0' as int + d)
    || (10 <= d < 16 && (c as int == 'a' as int + d - 10 || c as int == 'A' as int + d - 10))
  }

  lemma DigitValue(c: char, d: int)
    ensures HexValue(c) == Some(d) <==> StandsFor(c, d)
  {
  }

  /** A pair of digits gives a byte, the first digit counting sixteen times. */
  predicate SpellsByte(hi: char, lo: char, b: Byte) {
    StandsFor(hi, b / 16) && StandsFor(lo, b % 16)
  }

  lemma {:induction false} DecodedValues(s: string)
    requires DecodeHex(s).Some?
    ensures var bytes := DecodeHex(s).value;
            forall i :: 0 <= i < |bytes| ==>
              HexValue(s[2 * i]) == Some(bytes[i] / 16) && HexValue(s[2 * i + 1]) == Some(bytes[i] % 16)
  {
    if s == [] {
    } else {
      var rest := s[2..];
      assert s == [s[0], s[1]] + rest;
      DecodeHead(s[0], s[1], rest);
      PairOf(HexValue(s[0]).value, HexValue(s[1]).value);
      DecodedValues(rest);
      forall i | 1 <= i < |DecodeHex(s).value|
        ensures s[2 * i] == rest[2 * (i - 1)] && s[2 * i + 1] == rest[2 * (i - 1) + 1]
      {
      }
    }
  }

  lemma PairOf(hi: int, lo: int)
    requires 0 <= hi < 16 && 0 <= lo < 16
    ensures 0 <= 16 * hi + lo < 256 && (16 * hi + lo) / 16 == hi && (16 * hi + lo) % 16 == lo
  {
  }

  /** Each byte decoded is spelled by its own two digits, the higher one first. */
  lemma DecodedBytes(s: string)
    requires DecodeHex(s).Some?
    ensures forall i :: 0 <= i < |DecodeHex(s).value| ==> SpellsByte(s[2 * i], s[2 * i + 1], DecodeHex(s).value[i])
  {
    var bytes := DecodeHex(s).value;
    DecodedValues(s);
    forall i | 0 <= i < |bytes|
      ensures SpellsByte(s[2 * i], s[2 * i + 1], bytes[i])
    {
      DigitValue(s[2 * i], bytes[i] / 16);
      DigitValue(s[2 * i + 1], bytes[i] % 16);
    }
  }

  /** Formatting spells each byte likewise, in lower case. */
  lemma {:induction false} FormattedBytes(bytes: seq<Byte>)
    ensures var s := FormatHex(bytes);
            && |s| == 2 * |bytes|
            && forall i :: 0 <= i < |bytes| ==>
                 && SpellsByte(s[2 * i], s[2 * i + 1], bytes[i])
                 && !('A' <= s[2 * i] <= 'F') && !('A' <= s[2 * i + 1] <= 'F')
  {
    if bytes == [] {
    } else {
      var s, rest := FormatHex(bytes), FormatHex(bytes[1..]);
      FormattedBytes(bytes[1..]);
      forall i | 1 <= i < |bytes|
        ensures s[2 * i] == rest[2 * (i - 1)] && s[2 * i + 1] == rest[2 * (i - 1) + 1] && bytes[i] == bytes[1..][i - 1]
      {
      }
    }
  }

  /** An identifier is accepted as the MAC its 64 digits spell, byte by byte, and as no other. */
  lemma AcceptedAs(id: string, mac: Mac)
    ensures ParseOne(id) == Ok(mac) <==>
      |id| == 64 && forall i :: 0 <= i < 32 ==> SpellsByte(id[2 * i], id[2 * i + 1], mac[i])
  {
    AcceptedIds(id, mac);
    if ParseOne(id).Ok? {
      DecodedBytes(id);
      if forall i :: 0 <= i < 32 ==> SpellsByte(id[2 * i], id[2 * i + 1], mac[i]) {
        SameSpelling(id, ParseOne(id).value, mac);
      }
    } else if |id| == 64 && forall i :: 0 <= i < 32 ==> SpellsByte(id[2 * i], id[2 * i + 1], mac[i]) {
      SpelledDigits(id, mac);
    }
  }

  lemma OneDigit(c: char, d: int, e: int)
    requires StandsFor(c, d) && StandsFor(c, e)
    ensures d == e
  {
  }

  lemma SameSpelling(id: string, a: Mac, b: Mac)
    requires |id| == 64
    requires forall i :: 0 <= i < 32 ==> SpellsByte(id[2 * i], id[2 * i + 1], a[i])
    requires forall i :: 0 <= i < 32 ==> SpellsByte(id[2 * i], id[2 * i + 1], b[i])
    ensures a == b
  {
    forall i | 0 <= i < 32 ensures a[i] == b[i] {
      OneDigit(id[2 * i], a[i] / 16, b[i] / 16);
      OneDigit(id[2 * i + 1], a[i] % 16, b[i] % 16);
    }
  }

  lemma SpelledDigits(id: string, mac: Mac)
    requires |id| == 64 && forall i :: 0 <= i < 32 ==> SpellsByte(id[2 * i], id[2 * i + 1], mac[i])
    ensures forall i :: 0 <= i < |id| ==> HexValue(id[i]).Some?
  {
    forall i | 0 <= i < |id| ensures HexValue(id[i]).Some? {
      assert SpellsByte(id[2 * (i / 2)], id[2 * (i / 2) + 1], mac[i / 2]);
      DigitValue(id[i], if i % 2 == 0 then mac[i / 2] / 16 else mac[i / 2] % 16);
    }
  }
}
