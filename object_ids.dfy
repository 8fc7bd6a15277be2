/** Session and note ids. The store keys records by a 12-byte ObjectId;
    callers pass ids as text, which the lookups and updates
    (`get_notes_by_ids`, `get_chat_by_id`, `append_to_chat`,
    `replace_summary`) convert with `ObjectId(text)` (24 hexadecimal digits,
    either case); `start_chat` stores the note ids as given and hands the new
    session id back as `str(id)` (24 lower-case digits). */
module ObjectIds {
  import opened Outcomes

  newtype byte = x: int | 0 <= x < 256

  type ObjectId = b: seq<byte> | |b| == 12 witness [0, 0, 0, 0, 0, 0, 0, 0, 0, 0, 0, 0]

  /** The lower-case digit for a value below 16. */
  function HexDigit(d: nat): (c: char)
    requires d < 16
    ensures '0' <= c <= '9' || 'a' <= c <= 'f'
  {
    if d < 10 then ('0' as int + d) as char else ('a' as int + d - 10) as char
  }

  /** The value of one hexadecimal digit, upper or lower case. */
  function HexValue(c: char): (v: Option<nat>)
    ensures v.Some? ==> v.value < 16
    ensures v.Some? <==> '0' <= c <= '9' || 'a' <= c <= 'f' || 'A' <= c <= 'F'
  {
    if '0' <= c <= '9' then Some(c as int - '0' as int)
    else if 'a' <= c <= 'f' then Some(c as int - 'a' as int + 10)
    else if 'A' <= c <= 'F' then Some(c as int - 'A' as int + 10)
    else None
  }

  predicate IsHexDigit(c: char) {
    HexValue(c).Some?
  }

  /** The value of the byte that digits 2k and 2k+1 of `s` spell, high
      digit first. */
  function ByteAt(s: string, k: nat): (v: int)
    requires 2 * k + 1 < |s| && IsHexDigit(s[2 * k]) && IsHexDigit(s[2 * k + 1])
    ensures 0 <= v < 256
  {
    HexValue(s[2 * k]).value * 16 + HexValue(s[2 * k + 1]).value
  }

  /** Hexadecimal digits to bytes: two digits per byte, high digit first. */
  function DecodeHex(s: string): (r: Option<seq<byte>>)
    requires |s| % 2 == 0
    ensures r.Some? <==> forall i :: 0 <= i < |s| ==> IsHexDigit(s[i])
    ensures r.Some? ==> |r.value| == |s| / 2
    ensures r.Some? ==> forall k {:trigger ByteAt(s, k)} :: 0 <= k < |s| / 2 ==> r.value[k] as int == ByteAt(s, k)
    decreases |s|
  {
    if s == [] then Some([])
    else
      match (HexValue(s[0]), HexValue(s[1]), DecodeHex(s[2..]))
      case (Some(hi), Some(lo), Some(rest)) =>
        assert forall k :: 1 <= k < |s| / 2 ==> ByteAt(s, k) == ByteAt(s[2..], k - 1);
        Some([(hi * 16 + lo) as byte] + rest)
      case _ => None
  }

  /** `bytes.hex()`: two lower-case digits per byte. */
  function EncodeHex(b: seq<byte>): (r: string)
    ensures |r| == 2 * |b|
    ensures forall i :: 0 <= i < |r| ==> '0' <= r[i] <= '9' || 'a' <= r[i] <= 'f'
  {
    if b == [] then ""
    else [HexDigit(b[0] as int / 16), HexDigit(b[0] as int % 16)] + EncodeHex(b[1..])
  }

  /** `ObjectId(text)`: fails unless `text` is exactly 24 hexadecimal digits. */
  function Parse(text: string): (r: Option<ObjectId>)
    ensures r.Some? <==> |text| == 24 && forall i :: 0 <= i < 24 ==> IsHexDigit(text[i])
    ensures r.Some? ==> DecodeHex(text) == Some(r.value)
  {
    if |text| != 24 then None
    else
      match DecodeHex(text)
      case Some(b) => Some(b)
      case None => None
  }

  /** `str(id)`. */
  function ToText(id: ObjectId): (t: string)
    ensures |t| == 24
    ensures forall i :: 0 <= i < 24 ==> '0' <= t[i] <= '9' || 'a' <= t[i] <= 'f'
  {
    EncodeHex(id)
  }

  /** Reading back a digit `HexDigit` wrote gives its value. */
  lemma HexDigitValue(d: nat)
    requires d < 16
    ensures HexValue(HexDigit(d)) == Some(d)
  {
  }

  /** One step of `EncodeHex`: the first byte's two digits, then the rest. */
  lemma {:induction false} EncodeHexStep(b: seq<byte>)
    requires b != []
    ensures EncodeHex(b) == [HexDigit(b[0] as int / 16), HexDigit(b[0] as int % 16)] + EncodeHex(b[1..])
  {
  }

  /** One step of `DecodeHex`: two digits make the first byte. */
  lemma {:induction false} DecodeHexStep(s: string, hi: nat, lo: nat, rest: seq<byte>)
    requires 2 <= |s| && |s| % 2 == 0
    requires HexValue(s[0]) == Some(hi) && HexValue(s[1]) == Some(lo)
    requires DecodeHex(s[2..]) == Some(rest)
    ensures DecodeHex(s) == Some([(hi * 16 + lo) as byte] + rest)
  {
  }

  /** The first byte survives the round trip when the rest does. */
  lemma {:induction false} DecodeEncodeStep(b: seq<byte>)
    requires b != []
    requires DecodeHex(EncodeHex(b[1..])) == Some(b[1..])
    ensures DecodeHex(EncodeHex(b)) == Some(b)
  {
    var x := b[0] as int;
    var hi, lo := x / 16, x % 16;
    EncodeHexStep(b);
    var s := EncodeHex(b);
    assert s[0] == HexDigit(hi) && s[1] == HexDigit(lo) && s[2..] == EncodeHex(b[1..]);
    HexDigitValue(hi);
    HexDigitValue(lo);
    DecodeHexStep(s, hi, lo, b[1..]);
    assert [(hi * 16 + lo) as byte] + b[1..] == b;
  }

  lemma {:induction false} DecodeEncode(b: seq<byte>)
    ensures DecodeHex(EncodeHex(b)) == Some(b)
  {
    if b != [] {
      DecodeEncode(b[1..]);
      DecodeEncodeStep(b);
    }
  }

  /** The text `start_chat` returns names the record again when it comes back. */
  lemma ParseToText(id: ObjectId)
    ensures Parse(ToText(id)) == Some(id)
  {
    DecodeEncode(id);
  }

  /** Different ids have different texts. */
  lemma ToTextInjective(a: ObjectId, b: ObjectId)
    requires ToText(a) == ToText(b)
    ensures a == b
  {
    ParseToText(a);
    ParseToText(b);
  }
}
