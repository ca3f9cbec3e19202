/** Reading a PIN out of the raw text of a JSON string (crates/ipc-protocol/src/codec.rs). A `char`
    is a Unicode scalar value, so a surrogate is never one. */
module PinUnescape {
  import opened Domain
  import opened Texts

  // ---- what may stand between the quotes -------------------------------------------------------

  /** One character of the string, as it is spelled: section 7 of RFC 8259. */
  datatype Piece =
    | Raw(c: char)
    | Short(code: char)
    | Unit(hex: string)
    | Pair(high: string, low: string)

  predicate IsHex(c: char) {
    '0' <= c <= '9' || 'a' <= c <= 'f' || 'A' <= c <= 'F'
  }

  function HexValue(c: char): (n: nat)
    requires IsHex(c)
    ensures n < 16
  {
    if c <= '9' then c as int - 48 else if c <= 'F' then c as int - 55 else c as int - 87
  }

  predicate IsHex4(h: string) {
    |h| == 4 && IsHex(h[0]) && IsHex(h[1]) && IsHex(h[2]) && IsHex(h[3])
  }

  function Hex4(h: string): (n: nat)
    requires IsHex4(h)
    ensures n < 0x1_0000
  {
    ((HexValue(h[0]) * 16 + HexValue(h[1])) * 16 + HexValue(h[2])) * 16 + HexValue(h[3])
  }

  predicate IsHigh(n: nat) { 0xD800 <= n <= 0xDBFF }

  predicate IsLow(n: nat) { 0xDC00 <= n <= 0xDFFF }

  /** The character behind a two-character escape. */
  function ShortValue(code: char): Option<char> {
    match code
    case '"' => Some('"')
    case '\\' => Some('\\')
    case '/' => Some('/')
    case 'b' => Some(8 as char)
    case 'f' => Some(12 as char)
    case 'n' => Some(10 as char)
    case 'r' => Some(13 as char)
    case 't' => Some(9 as char)
    case _ => None
  }

  /** What the unescaper takes for a piece: the grammar, and the bare quotation mark besides. */
  predicate Taken(p: Piece) {
    match p
    case Raw(c) => c as int >= 0x20 && c != '\\'
    case Short(code) => ShortValue(code).Some?
    case Unit(hex) => IsHex4(hex) && !IsHigh(Hex4(hex)) && !IsLow(Hex4(hex))
    case Pair(high, low) => IsHex4(high) && IsHex4(low) && IsHigh(Hex4(high)) && IsLow(Hex4(low))
  }

  /** The grammar itself. */
  predicate Legal(p: Piece) {
    Taken(p) && p != Raw('"')
  }

  function Text(p: Piece): (s: string)
    ensures s != ""
  {
    match p
    case Raw(c) => [c]
    case Short(code) => ['\\', code]
    case Unit(hex) => "\\u" + hex
    case Pair(high, low) => "\\u" + high + "\\u" + low
  }

  function Value(p: Piece): char
    requires Taken(p)
  {
    match p
    case Raw(c) => c
    case Short(code) => ShortValue(code).value
    case Unit(hex) => Hex4(hex) as char
    case Pair(high, low) => (0x1_0000 + (Hex4(high) - 0xD800) * 0x400 + (Hex4(low) - 0xDC00)) as char
  }

  function TextOf(ps: seq<Piece>): string {
    if ps == [] then "" else Text(ps[0]) + TextOf(ps[1..])
  }

  function ValueOf(ps: seq<Piece>): (v: string)
    requires forall p <- ps :: Taken(p)
  {
    if ps == [] then "" else [Value(ps[0])] + ValueOf(ps[1..])
  }

  // ---- reading one piece -----------------------------------------------------------------------

  /** The piece at the front of a text, if there is one. */
  function Next(s: string): Option<Piece>
    requires s != ""
  {
    if s[0] as int < 0x20 then None
    else if s[0] != '\\' then Some(Raw(s[0]))
    else if |s| < 2 then None
    else if s[1] != 'u' then (if ShortValue(s[1]).Some? then Some(Short(s[1])) else None)
    else if |s| < 6 || !IsHex4(s[2..6]) then None
    else
      var hex := s[2..6];
      if IsHigh(Hex4(hex)) then
        if |s| >= 12 && s[6] == '\\' && s[7] == 'u' && IsHex4(s[8..12]) && IsLow(Hex4(s[8..12]))
        then Some(Pair(hex, s[8..12])) else None
      else if IsLow(Hex4(hex)) then None
      else Some(Unit(hex))
  }

  lemma NextIsTaken(s: string)
    requires s != "" && Next(s).Some?
    ensures Taken(Next(s).value) && Text(Next(s).value) <= s
  {
    var p := Next(s).value;
    if p.Pair? {
      assert s[..12] == "\\u" + s[2..6] + "\\u" + s[8..12];
    } else if p.Unit? {
      assert s[..6] == "\\u" + s[2..6];
    }
  }

  /** No piece is the beginning of another, so what can be read is read. */
  lemma TakenIsNext(p: Piece, rest: string)
    requires Taken(p)
    ensures Next(Text(p) + rest) == Some(p)
  {
    var s := Text(p) + rest;
    if p.Unit? {
      assert s[2..6] == p.hex;
    } else if p.Pair? {
      assert s[2..6] == p.high && s[8..12] == p.low;
    }
  }

  /** The string spelled by a text, if it spells one. */
  function Unescaped(s: string): Option<string>
    decreases |s|
  {
    if s == "" then Some("")
    else match Next(s)
      case None => None
      case Some(p) =>
        NextIsTaken(s);
        match Unescaped(s[|Text(p)|..])
        case None => None
        case Some(v) => Some([Value(p)] + v)
  }

  // ---- exactness -------------------------------------------------------------------------------

  /** Every spelling is read, and read as what it spells. */
  lemma {:induction false} SpellingIsRead(ps: seq<Piece>)
    requires forall p <- ps :: Taken(p)
    ensures Unescaped(TextOf(ps)) == Some(ValueOf(ps))
    decreases |ps|
  {
    if ps != [] {
      SpellingIsRead(ps[1..]);
      TakenIsNext(ps[0], TextOf(ps[1..]));
      assert TextOf(ps)[|Text(ps[0])|..] == TextOf(ps[1..]);
    }
  }

  /** What is read is a spelling. */
  lemma {:induction false} ReadIsSpelling(s: string) returns (ps: seq<Piece>)
    requires Unescaped(s).Some?
    ensures (forall p <- ps :: Taken(p)) && TextOf(ps) == s && ValueOf(ps) == Unescaped(s).value
    decreases |s|
  {
    ps := [];
    if s != "" {
      var p := Next(s).value;
      NextIsTaken(s);
      var rest := ReadIsSpelling(s[|Text(p)|..]);
      ps := [p] + rest;
      assert ps[1..] == rest;
      assert s == Text(p) + s[|Text(p)|..];
    }
  }

  /** No quotation mark stands outside an escape. */
  predicate NoBareQuote(s: string)
    decreases |s|
  {
    if s == "" then true
    else if s[0] == '\\' then |s| < 2 || NoBareQuote(s[2..])
    else s[0] != '"' && NoBareQuote(s[1..])
  }

  lemma {:induction false} HexHasNoQuote(h: string, rest: string)
    requires forall c <- h :: IsHex(c)
    ensures NoBareQuote(h + rest) <==> NoBareQuote(rest)
    decreases |h|
  {
    if h == "" {
      assert h + rest == rest;
    } else {
      assert h[0] in h && (h + rest)[1..] == h[1..] + rest;
      HexHasNoQuote(h[1..], rest);
    }
  }

  lemma PieceQuote(p: Piece, rest: string)
    requires Taken(p)
    ensures NoBareQuote(Text(p) + rest) <==> Legal(p) && NoBareQuote(rest)
  {
    hide Hex4, IsHex4;
    match p
    case Raw(c) => assert (Text(p) + rest)[1..] == rest;
    case Short(code) => assert (Text(p) + rest)[2..] == rest;
    case Unit(hex) => UnitQuote(hex, rest);
    case Pair(high, low) =>
      assert Text(p) + rest == "\\u" + high + ("\\u" + low + rest);
      UnitQuote(high, "\\u" + low + rest);
      UnitQuote(low, rest);
  }

  lemma UnitQuote(h: string, rest: string)
    requires IsHex4(h)
    ensures NoBareQuote("\\u" + h + rest) <==> NoBareQuote(rest)
  {
    assert ("\\u" + h + rest)[2..] == h + rest;
    HexHasNoQuote(h, rest);
  }

  lemma {:induction false} LegalIffNoBareQuote(ps: seq<Piece>)
    requires forall p <- ps :: Taken(p)
    ensures NoBareQuote(TextOf(ps)) <==> forall p <- ps :: Legal(p)
    decreases |ps|
  {
    if ps != [] {
      LegalIffNoBareQuote(ps[1..]);
      PieceQuote(ps[0], TextOf(ps[1..]));
      assert ps == [ps[0]] + ps[1..];
    }
  }

  ghost predicate LegallySpells(s: string, v: string) {
    exists ps: seq<Piece> :: (forall p <- ps :: Legal(p)) && TextOf(ps) == s && ValueOf(ps) == v
  }

  /** The unescaper returns `v` for a text without a bare quotation mark exactly when the text is a
      legal spelling of `v`: raw, short escapes, `\u` with digits of either case, and surrogate
      pairs. */
  lemma AcceptedExactly(s: string, v: string)
    ensures LegallySpells(s, v) <==> Unescaped(s) == Some(v) && NoBareQuote(s)
  {
    if LegallySpells(s, v) {
      var ps: seq<Piece> :| (forall p <- ps :: Legal(p)) && TextOf(ps) == s && ValueOf(ps) == v;
      SpellingIsRead(ps);
      LegalIffNoBareQuote(ps);
    }
    if Unescaped(s) == Some(v) && NoBareQuote(s) {
      var ps := ReadIsSpelling(s);
      LegalIffNoBareQuote(ps);
    }
  }

  /** The condition is needed: a bare quotation mark is passed through, though no legal spelling
      contains one. */
  lemma BareQuotePassesThrough()
    ensures Unescaped("\"") == Some("\"") && forall v: string :: !LegallySpells("\"", v)
  {
    assert "\""[1..] == "" && Unescaped("") == Some("") && [Value(Raw('"'))] + "" == "\"";
    assert !NoBareQuote("\"");
    forall v: string ensures !LegallySpells("\"", v) { AcceptedExactly("\"", v); }
  }

  // ---- surrogates ------------------------------------------------------------------------------

  lemma {:induction false} StuckAfter(ps: seq<Piece>, s: string)
    requires (forall p <- ps :: Taken(p)) && s != "" && Next(s) == None
    ensures Unescaped(TextOf(ps) + s) == None
    decreases |ps|
  {
    if ps == [] {
      assert TextOf(ps) + s == s;
    } else {
      StuckAfter(ps[1..], s);
      var rest := TextOf(ps[1..]) + s;
      TakenIsNext(ps[0], rest);
      assert TextOf(ps) + s == Text(ps[0]) + rest;
      assert (Text(ps[0]) + rest)[|Text(ps[0])|..] == rest;
    }
  }

  ghost predicate BeginsWithLow(s: string) {
    exists h: string :: IsHex4(h) && IsLow(Hex4(h)) && "\\u" + h <= s
  }

  /** After anything readable, a low surrogate first, or a high one not followed by a low one, makes
      the whole string unreadable. */
  lemma LoneSurrogatesAreRefused(ps: seq<Piece>, h: string, rest: string)
    requires (forall p <- ps :: Taken(p)) && IsHex4(h)
    requires IsLow(Hex4(h)) || (IsHigh(Hex4(h)) && !BeginsWithLow(rest))
    ensures Unescaped(TextOf(ps) + ("\\u" + h + rest)) == None
  {
    var s := "\\u" + h + rest;
    assert s[2..6] == h;
    assert |rest| >= 6 && rest[0] == '\\' && rest[1] == 'u' ==> "\\u" + rest[2..6] == rest[..6] && s[8..12] == rest[2..6];
    StuckAfter(ps, s);
  }

  function Prefixed(built: string, rest: Option<string>): Option<string> {
    match rest
    case None => None
    case Some(v) => Some(built + v)
  }

  lemma PrefixedNothing(rest: Option<string>)
    ensures Prefixed("", rest) == rest
  {
    if rest.Some? { assert "" + rest.value == rest.value; }
  }

  lemma PrefixedMore(built: string, c: char, rest: Option<string>)
    ensures Prefixed(built + [c], rest) == Prefixed(built, Prefixed([c], rest))
  {
    if rest.Some? { assert built + ([c] + rest.value) == built + [c] + rest.value; }
  }

  // ---- the loops -------------------------------------------------------------------------------

  /** `parse_hex4`: four digits from position `i` on; `next` is the position behind them. */
  method ParseHex4(s: string, i: nat) returns (r: Option<nat>, next: nat)
    requires i <= |s|
    ensures i <= next <= |s|
    ensures r.Some? <==> |s| >= i + 4 && IsHex4(s[i..i + 4])
    ensures r.Some? ==> next == i + 4 && r.value == Hex4(s[i..i + 4])
  {
    var val := 0;
    next := i;
    for k := 0 to 4
      invariant next == i + k <= |s|
      invariant forall j :: i <= j < next ==> IsHex(s[j])
      invariant k == 0 ==> val == 0
      invariant k == 1 ==> val == HexValue(s[i])
      invariant k == 2 ==> val == HexValue(s[i]) * 16 + HexValue(s[i + 1])
      invariant k == 3 ==> val == (HexValue(s[i]) * 16 + HexValue(s[i + 1])) * 16 + HexValue(s[i + 2])
      invariant k == 4 ==> val == Hex4(s[i..i + 4])
    {
      if next == |s| || !IsHex(s[next]) { return None, next; }
      val := val * 16 + HexValue(s[next]);
      next := next + 1;
    }
    r := Some(val);
  }

  /** The escape behind a backslash at position `i - 1`. */
  method ParseEscape(s: string, i: nat) returns (r: Option<char>, next: nat)
    requires 1 <= i <= |s| && s[i - 1] == '\\'
    ensures r.Some? <==> Next(s[i - 1..]).Some?
    ensures r.Some? ==> i < next <= |s| && Taken(Next(s[i - 1..]).value)
    ensures r.Some? ==> next == i - 1 + |Text(Next(s[i - 1..]).value)| && r.value == Value(Next(s[i - 1..]).value)
  {
    var t := s[i - 1..];
    if i == |s| { return None, i; }
    if s[i] != 'u' { return ShortValue(s[i]), i + 1; }
    var high, j := ParseHex4(s, i + 1);
    if high.None? { return None, j; }
    assert t[2..6] == s[i + 1..i + 5];
    if IsHigh(high.value) {
      if j + 1 >= |s| || s[j] != '\\' || s[j + 1] != 'u' { return None, j; }
      var low, k := ParseHex4(s, j + 2);
      if low.None? { return None, k; }
      assert t[8..12] == s[j + 2..j + 6];
      if !IsLow(low.value) { return None, k; }
      return Some((0x1_0000 + (high.value - 0xD800) * 0x400 + (low.value - 0xDC00)) as char), k;
    }
    if IsLow(high.value) { return None, j; }
    r, next := Some(high.value as char), j;
  }

  /** `unescape_pin_json_string`; None stands for a malformed request. */
  method UnescapePinJsonString(raw: string) returns (pin: Option<string>)
    ensures var t := Trim(raw);
      pin == if |t| < 2 || t[0] != '"' || t[|t| - 1] != '"' then None else Unescaped(t[1..|t| - 1])
  {
    var trimmed := TrimText(raw);
    if |trimmed| < 2 || trimmed[0] != '"' || trimmed[|trimmed| - 1] != '"' { return None; }
    var inner := trimmed[1..|trimmed| - 1];
    var built, i := "", 0;
    assert inner[0..] == inner;
    PrefixedNothing(Unescaped(inner));
    while i < |inner|
      invariant i <= |inner|
      invariant Unescaped(inner) == Prefixed(built, Unescaped(inner[i..]))
    {
      ghost var rest := inner[i..];
      ghost var before := built;
      if inner[i] as int < 0x20 { return None; }
      if inner[i] == '\\' {
        var c, next := ParseEscape(inner, i + 1);
        if c.None? { return None; }
        built := built + [c.value];
        assert inner[next..] == rest[next - i..];
        PrefixedMore(before, c.value, Unescaped(inner[next..]));
        i := next;
      } else {
        built := built + [inner[i]];
        assert inner[i + 1..] == rest[1..];
        PrefixedMore(before, inner[i], Unescaped(inner[i + 1..]));
        i := i + 1;
      }
    }
    assert inner[i..] == "" && built + "" == built;
    pin := Some(built);
  }

}
