/** White space, as Rust's `trim` sees it. */
module Texts {
  /** The Unicode property White_Space. */
  predicate IsWhitespace(ch: char) {
    var n := ch as int;
    || 0x9 <= n <= 0xD || n == 0x20 || n == 0x85 || n == 0xA0 || n == 0x1680
    || 0x2000 <= n <= 0x200A || n == 0x2028 || n == 0x2029 || n == 0x202F || n == 0x205F || n == 0x3000
  }

  function TrimStart(s: string): string {
    if s != "" && IsWhitespace(s[0]) then TrimStart(s[1..]) else s
  }

  function TrimEnd(s: string): string {
    if s != "" && IsWhitespace(s[|s| - 1]) then TrimEnd(s[..|s| - 1]) else s
  }

  function Trim(s: string): string { TrimEnd(TrimStart(s)) }

  ghost predicate IsBlank(s: string) { forall ch <- s :: IsWhitespace(ch) }

  method TrimText(s: string) returns (t: string)
    ensures t == Trim(s)
  {
    t := s;
    while t != "" && IsWhitespace(t[0])
      invariant TrimStart(t) == TrimStart(s)
      decreases |t|
    {
      t := t[1..];
    }
    while t != "" && IsWhitespace(t[|t| - 1])
      invariant TrimEnd(t) == Trim(s)
      decreases |t|
    {
      t := t[..|t| - 1];
    }
  }

  /** Trimming takes off blanks at both ends, and all of them. */
  lemma TrimExact(s: string, t: string)
    ensures t == Trim(s) <==>
      && (t == "" || (!IsWhitespace(t[0]) && !IsWhitespace(t[|t| - 1])))
      && (exists front: string, back: string :: IsBlank(front) && IsBlank(back) && s == front + t + back)
      && (t == "" ==> IsBlank(s))
  {
    TrimSplits(s);
    if && (t == "" || (!IsWhitespace(t[0]) && !IsWhitespace(t[|t| - 1])))
       && (exists front: string, back: string :: IsBlank(front) && IsBlank(back) && s == front + t + back)
    {
      var front: string, back: string :| IsBlank(front) && IsBlank(back) && s == front + t + back;
      TrimStartBlank(front, t + back);
      assert front + (t + back) == s;
      TrimEndBlank(t, back);
      if t != "" { assert (t + back)[0] == t[0]; }
      if t == "" { TrimStartOfBlank(s); }
    }
  }

  lemma {:induction false} TrimStartOfBlank(s: string)
    requires IsBlank(s)
    ensures TrimStart(s) == ""
  {
    if s != "" { TrimStartOfBlank(s[1..]); }
  }

  lemma {:induction false} TrimStartBlank(front: string, s: string)
    requires IsBlank(front)
    ensures TrimStart(front + s) == TrimStart(s)
    decreases |front|
  {
    if front == "" {
      assert front + s == s;
    } else {
      assert (front + s)[1..] == front[1..] + s;
      TrimStartBlank(front[1..], s);
    }
  }

  lemma {:induction false} TrimEndBlank(s: string, back: string)
    requires IsBlank(back)
    ensures TrimEnd(s + back) == TrimEnd(s)
    decreases |back|
  {
    if back == "" {
      assert s + back == s;
    } else {
      assert (s + back)[..|s + back| - 1] == s + back[..|back| - 1];
      TrimEndBlank(s, back[..|back| - 1]);
    }
  }

  lemma {:induction false} TrimStartSplits(s: string) returns (front: string)
    ensures IsBlank(front) && s == front + TrimStart(s)
    ensures TrimStart(s) == "" || !IsWhitespace(TrimStart(s)[0])
  {
    front := "";
    if s != "" && IsWhitespace(s[0]) {
      var rest := TrimStartSplits(s[1..]);
      front := [s[0]] + rest;
    }
  }

  lemma {:induction false} TrimEndSplits(s: string) returns (back: string)
    ensures IsBlank(back) && s == TrimEnd(s) + back
    ensures TrimEnd(s) == "" || !IsWhitespace(TrimEnd(s)[|TrimEnd(s)| - 1])
  {
    back := "";
    if s != "" && IsWhitespace(s[|s| - 1]) {
      var rest := TrimEndSplits(s[..|s| - 1]);
      back := rest + [s[|s| - 1]];
    }
  }

  lemma TrimSplits(s: string)
    ensures var t := Trim(s);
      && (t == "" || (!IsWhitespace(t[0]) && !IsWhitespace(t[|t| - 1])))
      && (exists front: string, back: string :: IsBlank(front) && IsBlank(back) && s == front + t + back)
      && (t == "" ==> IsBlank(s))
  {
    var front := TrimStartSplits(s);
    var back := TrimEndSplits(TrimStart(s));
    var t := Trim(s);
    assert s == front + t + back;
    if t != "" { assert TrimStart(s)[0] == t[0]; }
  }
}
