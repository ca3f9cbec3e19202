/** 128-bit identifiers as text: 32 lower-case hexadecimal digits (crates/service/src/persistence.rs). */
module HexIds {
  import opened Domain

  type Byte = b: int | 0 <= b < 256

  const ID_BYTES: nat := 16
  const ID_LIMIT: nat := 0x1_0000_0000_0000_0000_0000_0000_0000_0000

  // ---- digits --------------------------------------------------------------------------------

  predicate IsHexDigit(c: char) {
    '0' <= c <= '9' || 'a' <= c <= 'f'
  }

  function HexDigit(n: nat): (c: char)
    requires n < 16
    ensures IsHexDigit(c)
  {
    if n < 10 then (48 + n) as char else (87 + n) as char
  }

  function HexValue(c: char): (n: nat)
    requires IsHexDigit(c)
    ensures n < 16 && HexDigit(n) == c
  {
    if c <= '9' then c as int - 48 else c as int - 87
  }

  /** The `i`-th pair of digits of `s` spells this byte. */
  predicate Spells(s: string, i: nat, b: Byte) {
    2 * i + 1 < |s| && s[2 * i] == HexDigit(b / 16) && s[2 * i + 1] == HexDigit(b % 16)
  }

  function HexOf(bytes: seq<Byte>): (s: string)
    ensures |s| == 2 * |bytes|
    ensures forall i :: 0 <= i < |bytes| ==> Spells(s, i, bytes[i])
  {
    if bytes == [] then ""
    else
      var last := bytes[|bytes| - 1];
      HexOf(bytes[..|bytes| - 1]) + [HexDigit(last / 16), HexDigit(last % 16)]
  }

  ghost predicate IsHexId(s: string) {
    |s| == 2 * ID_BYTES && forall i :: 0 <= i < |s| ==> IsHexDigit(s[i])
  }

  // ---- the two loops -------------------------------------------------------------------------

  /** `format_128bit_id_hex`. */
  method FormatHex(bytes: seq<Byte>) returns (s: string)
    ensures s == HexOf(bytes)
  {
    s := "";
    for i := 0 to |bytes|
      invariant s == HexOf(bytes[..i])
    {
      assert bytes[..i + 1][..i] == bytes[..i];
      s := s + [HexDigit(bytes[i] / 16), HexDigit(bytes[i] % 16)];
    }
    assert bytes[..|bytes|] == bytes;
  }

  /** `parse_128bit_id_hex`: accepts exactly what formatting can produce, and undoes it. */
  method ParseHex(s: string) returns (r: Option<seq<Byte>>)
    ensures r.Some? <==> IsHexId(s)
    ensures r.Some? ==> |r.value| == ID_BYTES && HexOf(r.value) == s
  {
    if |s| != 2 * ID_BYTES { return None; }
    var bytes := new Byte[ID_BYTES](_ => 0);
    for i := 0 to ID_BYTES
      invariant forall j :: 0 <= j < 2 * i ==> IsHexDigit(s[j])
      invariant forall j :: 0 <= j < i ==> Spells(s, j, bytes[j])
    {
      if !IsHexDigit(s[2 * i]) || !IsHexDigit(s[2 * i + 1]) { return None; }
      bytes[i] := HexValue(s[2 * i]) * 16 + HexValue(s[2 * i + 1]);
    }
    r := Some(bytes[..]);
    SameHex(bytes[..], s);
  }

  /** A text that has the digits of `bytes` is their formatting. */
  lemma SameHex(bytes: seq<Byte>, s: string)
    requires |s| == 2 * |bytes|
    requires forall i :: 0 <= i < |bytes| ==> Spells(s, i, bytes[i])
    ensures HexOf(bytes) == s
  {
    hide HexOf;
    var t := HexOf(bytes);
    forall k | 0 <= k < |s| ensures s[k] == t[k] {
      assert Spells(s, k / 2, bytes[k / 2]) && Spells(t, k / 2, bytes[k / 2]);
      assert k == 2 * (k / 2) || k == 2 * (k / 2) + 1;
    }
  }

  lemma HexIsLegal(bytes: seq<Byte>)
    requires |bytes| == ID_BYTES
    ensures IsHexId(HexOf(bytes))
  {
    hide HexOf;
    var s := HexOf(bytes);
    forall k | 0 <= k < |s| ensures IsHexDigit(s[k]) {
      assert Spells(s, k / 2, bytes[k / 2]);
      assert k == 2 * (k / 2) || k == 2 * (k / 2) + 1;
    }
  }

  lemma HexInjective(b: seq<Byte>, c: seq<Byte>)
    requires HexOf(b) == HexOf(c)
    ensures b == c
  {
    assert |HexOf(b)| == 2 * |b| && |HexOf(c)| == 2 * |c|;
    forall i | 0 <= i < |b| ensures b[i] == c[i] {
      assert Spells(HexOf(b), i, b[i]) && Spells(HexOf(c), i, c[i]);
      DigitInjective(b[i] / 16, c[i] / 16);
      DigitInjective(b[i] % 16, c[i] % 16);
    }
  }

  lemma DigitInjective(m: nat, n: nat)
    requires m < 16 && n < 16 && HexDigit(m) == HexDigit(n)
    ensures m == n
  {
  }

  // ---- identifiers ---------------------------------------------------------------------------

  /** Big-endian value. */
  function IdOf(bytes: seq<Byte>): nat {
    if bytes == [] then 0 else IdOf(bytes[..|bytes| - 1]) * 256 + bytes[|bytes| - 1]
  }

  /** The lowest `n` bytes, big-endian. */
  function BytesOf(id: nat, n: nat): (bytes: seq<Byte>)
    ensures |bytes| == n
  {
    if n == 0 then [] else BytesOf(id / 256, n - 1) + [id % 256]
  }

  function Power256(n: nat): nat {
    if n == 0 then 1 else 256 * Power256(n - 1)
  }

  lemma {:induction false} BytesRoundTrip(id: nat, n: nat)
    requires id < Power256(n)
    ensures IdOf(BytesOf(id, n)) == id
    decreases n
  {
    if n > 0 {
      BytesRoundTrip(id / 256, n - 1);
      assert BytesOf(id, n)[..n - 1] == BytesOf(id / 256, n - 1);
    }
  }

  lemma {:induction false} ValueRoundTrip(bytes: seq<Byte>)
    ensures BytesOf(IdOf(bytes), |bytes|) == bytes && IdOf(bytes) < Power256(|bytes|)
    decreases |bytes|
  {
    if bytes != [] {
      ValueRoundTrip(bytes[..|bytes| - 1]);
    }
  }

  lemma IdLimit()
    ensures Power256(ID_BYTES) == ID_LIMIT
  {
    assert Power256(4) == 0x1_0000_0000;
    assert Power256(8) == 0x1_0000_0000_0000_0000;
    assert Power256(12) == 0x1_0000_0000_0000_0000_0000_0000;
  }

  /** The text of an identifier. */
  function FormatId(id: nat): string {
    HexOf(BytesOf(id, ID_BYTES))
  }

  /** A text names at most one identifier, an identifier of 128 bits has exactly one text. */
  lemma IdTextRoundTrip(id: nat, other: nat)
    requires id < ID_LIMIT && other < ID_LIMIT
    ensures IsHexId(FormatId(id))
    ensures FormatId(id) == FormatId(other) <==> id == other
  {
    IdLimit();
    BytesRoundTrip(id, ID_BYTES);
    BytesRoundTrip(other, ID_BYTES);
    hide HexOf, BytesOf;
    HexIsLegal(BytesOf(id, ID_BYTES));
    if FormatId(id) == FormatId(other) { HexInjective(BytesOf(id, ID_BYTES), BytesOf(other, ID_BYTES)); }
  }

  /** Parsing as a value: the identifier with this text, if there is one. */
  ghost function ParseId(s: string): Option<nat> {
    if exists id: nat :: id < ID_LIMIT && FormatId(id) == s
    then var id: nat :| id < ID_LIMIT && FormatId(id) == s; Some(id)
    else None
  }

  lemma ParseIdExact(s: string, id: nat)
    ensures ParseId(s) == Some(id) <==> id < ID_LIMIT && FormatId(id) == s
  {
    if id < ID_LIMIT && FormatId(id) == s {
      assert ParseId(s).Some?;
      IdTextRoundTrip(id, ParseId(s).value);
    }
  }

  /** The identifier behind a text, by way of its bytes. */
  method ParseIdText(s: string) returns (r: Option<nat>)
    ensures r == ParseId(s)
    ensures r.Some? <==> IsHexId(s)
  {
    IdLimit();
    var bytes := ParseHex(s);
    if bytes.None? {
      NoIdText(s);
      return None;
    }
    ValueRoundTrip(bytes.value);
    r := Some(IdOf(bytes.value));
    ParseIdExact(s, r.value);
  }

  lemma NoIdText(s: string)
    requires !IsHexId(s)
    ensures ParseId(s) == None
  {
    forall id: nat | id < ID_LIMIT ensures FormatId(id) != s { IdTextRoundTrip(id, id); }
  }
}
