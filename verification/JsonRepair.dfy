/** Backslashes in almost-JSON written by a model (internal/toolcall/toolcalls_json_repair.go):
    every backslash that starts no escape of RFC 8259, section 7, is doubled. */
module JsonRepair {
  import opened HexDigits

  predicate Hex(c: char) {
    '0' <= c <= '9' || 'a' <= c <= 'f' || 'A' <= c <= 'F'
  }

  /** How long the escape at the start of `s` is, 0 if there is none. */
  function EscapeLength(s: string): (n: nat)
    ensures n <= |s| && (n > 0 ==> s[0] == '\\')
  {
    if |s| < 2 || s[0] != '\\' then 0
    else if s[1] in "\"\\/bfnrt" then 2
    else if s[1] == 'u' && |s| >= 6 && Hex(s[2]) && Hex(s[3]) && Hex(s[4]) && Hex(s[5]) then 6
    else 0
  }

  function Repair(s: string): string {
    if s == "" then ""
    else
      var n := EscapeLength(s);
      if n > 0 then s[..n] + Repair(s[n..])
      else if s[0] == '\\' then "\\\\" + Repair(s[1..])
      else [s[0]] + Repair(s[1..])
  }

  /** The four hexadecimal digits after "\u", as the source looks for them. */
  method FourHex(s: string, i: nat) returns (isHex: bool)
    requires i + 5 < |s|
    ensures isHex == (Hex(s[i + 2]) && Hex(s[i + 3]) && Hex(s[i + 4]) && Hex(s[i + 5]))
  {
    isHex := true;
    var j := 1;
    while j <= 4
      invariant 1 <= j <= 5 && isHex
      invariant j > 1 ==> Hex(s[i + 2])
      invariant j > 2 ==> Hex(s[i + 3])
      invariant j > 3 ==> Hex(s[i + 4])
      invariant j > 4 ==> Hex(s[i + 5])
    {
      if !Hex(s[i + 1 + j]) {
        return false;
      }
      j := j + 1;
    }
  }

  predicate ValidAt(s: string, i: nat, n: nat) {
    i + n <= |s| && EscapeLength(s[i..]) == n > 0
  }

  lemma ShortEscape(s: string, i: nat)
    requires i + 1 < |s| && s[i] == '\\' && s[i + 1] in "\"\\/bfnrt"
    ensures ValidAt(s, i, 2)
  {
  }

  lemma UnicodeEscape(s: string, i: nat)
    requires i + 5 < |s| && s[i] == '\\' && s[i + 1] == 'u'
    requires Hex(s[i + 2]) && Hex(s[i + 3]) && Hex(s[i + 4]) && Hex(s[i + 5])
    ensures ValidAt(s, i, 6) && s[i..i + 6] == ['\\', 'u', s[i + 2], s[i + 3], s[i + 4], s[i + 5]]
  {
  }

  lemma StepEscape(s: string, i: nat, n: nat)
    requires ValidAt(s, i, n)
    ensures Repair(s[i..]) == s[i..i + n] + Repair(s[i + n..])
  {
    hide EscapeLength;
    assert s[i..][..n] == s[i..i + n] && s[i..][n..] == s[i + n..];
  }

  lemma StepOne(s: string, i: nat)
    requires i < |s| && EscapeLength(s[i..]) == 0
    ensures Repair(s[i..]) == (if s[i] == '\\' then "\\\\" else [s[i]]) + Repair(s[i + 1..])
  {
    hide EscapeLength;
    assert s[i..][1..] == s[i + 1..];
  }

  method RepairInvalidBackslashes(s: string) returns (out: string)
    ensures out == Repair(s)
  {
    hide Repair, Hex, ValidAt;
    if '\\' !in s {
      NothingToRepair(s);
      return s;
    }
    out := "";
    var i := 0;
    assert s[0..] == s;
    while i < |s|
      invariant 0 <= i <= |s|
      invariant Repair(s) == out + Repair(s[i..])
    {
      if s[i] == '\\' {
        if i + 1 < |s| {
          var next := s[i + 1];
          if next in "\"\\/bfnrt" {
            ShortEscape(s, i);
            StepEscape(s, i, 2);
            out := out + ['\\', next];
            i := i + 2;
            continue;
          }
          if next == 'u' && i + 5 < |s| {
            var isHex := FourHex(s, i);
            if isHex {
              UnicodeEscape(s, i);
              StepEscape(s, i, 6);
              out := out + ['\\', 'u', s[i + 2], s[i + 3], s[i + 4], s[i + 5]];
              i := i + 6;
              continue;
            }
          }
        }
        StepOne(s, i);
        out := out + "\\\\";
      } else {
        StepOne(s, i);
        out := out + [s[i]];
      }
      i := i + 1;
    }
    NothingToRepair(s[i..]);
  }

  lemma {:induction false} NothingToRepair(s: string)
    requires '\\' !in s
    ensures Repair(s) == s
  {
    if s != "" {
      NothingToRepair(s[1..]);
      assert s == [s[0]] + s[1..];
    }
  }

  // What the text says.

  /** One letter of a JSON string: itself, or written as an escape. */
  datatype Letter = Itself(c: char) | Escaped(c: char) | Unicode(digits: string)

  function FirstEscape(s: string): Letter
    requires EscapeLength(s) > 0
  {
    if s[1] == 'u' then Unicode(s[2..6]) else Escaped(s[1])
  }

  datatype Reading = Wrong | Right(letters: seq<Letter>)

  function Prepend(l: Letter, r: Reading): Reading {
    if r.Wrong? then Wrong else Right([l] + r.letters)
  }

  /** A strict reader: a backslash that starts no escape is an error. */
  function Strict(s: string): Reading {
    if s == "" then Right([])
    else
      var n := EscapeLength(s);
      if n > 0 then Prepend(FirstEscape(s), Strict(s[n..]))
      else if s[0] == '\\' then Wrong
      else Prepend(Itself(s[0]), Strict(s[1..]))
  }

  /** A lenient reader: such a backslash stands for a backslash. */
  function Lenient(s: string): seq<Letter> {
    if s == "" then []
    else
      var n := EscapeLength(s);
      if n > 0 then [FirstEscape(s)] + Lenient(s[n..])
      else if s[0] == '\\' then [Escaped('\\')] + Lenient(s[1..])
      else [Itself(s[0])] + Lenient(s[1..])
  }

  lemma EscapeStays(s: string, rest: string)
    requires EscapeLength(s) > 0
    ensures var n := EscapeLength(s); var t := s[..n] + rest;
      EscapeLength(t) == n && t[n..] == rest && FirstEscape(t) == FirstEscape(s)
  {
    var n := EscapeLength(s);
    var t := s[..n] + rest;
    if s[1] == 'u' {
      assert t[2] == s[2] && t[3] == s[3] && t[4] == s[4] && t[5] == s[5];
      assert t[2..6] == s[2..6];
    }
  }

  lemma HexIff(c: char)
    ensures Hex(c) <==> exists d: nat :: WritesDigit(c, d)
  {
    if '0' <= c <= '9' {
      assert WritesDigit(c, c as int - '0' as int);
    } else if 'a' <= c <= 'f' {
      assert WritesDigit(c, c as int - 'a' as int + 10);
    } else if 'A' <= c <= 'F' {
      assert WritesDigit(c, c as int - 'A' as int + 10);
    }
  }

  /** The two-character escapes of RFC 8259, section 7. */
  const SHORT := ["\\\"", "\\\\", "\\/", "\\b", "\\f", "\\n", "\\r", "\\t"]

  /** `\u` and the four digits of a code unit, each in either letter case. */
  ghost predicate WritesUnit(s: string, unit: nat) {
    && unit < 0x10000 && |s| == 6 && s[0] == '\\' && s[1] == 'u'
    && WritesDigit(s[2], unit / 4096) && WritesDigit(s[3], unit / 256 % 16)
    && WritesDigit(s[4], unit / 16 % 16) && WritesDigit(s[5], unit % 16)
  }

  /** A text starts with an escape exactly if it starts with a short one or with that of a code unit. */
  lemma {:induction false} EscapeIff(s: string)
    ensures EscapeLength(s) == 2 <==> |s| >= 2 && s[..2] in SHORT
    ensures EscapeLength(s) == 6 <==> |s| >= 6 && exists unit: nat :: WritesUnit(s[..6], unit)
    ensures EscapeLength(s) in {0, 2, 6}
  {
    hide Hex, WritesDigit;
    if |s| >= 2 {
      ShortIff(s[..2]);
      assert s[..2][0] == s[0] && s[..2][1] == s[1];
    }
    if |s| >= 6 {
      UnitIff(s[..6]);
      assert forall i :: 0 <= i < 6 ==> s[..6][i] == s[i];
    }
  }

  lemma ShortIff(s: string)
    requires |s| == 2
    ensures s in SHORT <==> s[0] == '\\' && s[1] in "\"\\/bfnrt"
  {
    assert s == [s[0], s[1]];
  }

  lemma UnitIff(s: string)
    requires |s| == 6
    ensures (exists unit: nat :: WritesUnit(s, unit)) <==>
      s[0] == '\\' && s[1] == 'u' && Hex(s[2]) && Hex(s[3]) && Hex(s[4]) && Hex(s[5])
  {
    hide Hex, WritesDigit;
    HexIff(s[2]);
    HexIff(s[3]);
    HexIff(s[4]);
    HexIff(s[5]);
    if s[0] == '\\' && s[1] == 'u' && Hex(s[2]) && Hex(s[3]) && Hex(s[4]) && Hex(s[5]) {
      SomeUnit(s);
    }
  }

  lemma SomeUnit(s: string)
    requires |s| == 6 && s[0] == '\\' && s[1] == 'u'
    requires forall i :: 2 <= i < 6 ==> exists d: nat :: WritesDigit(s[i], d)
    ensures exists unit: nat :: WritesUnit(s, unit)
  {
    hide WritesDigit;
    var a: nat :| WritesDigit(s[2], a);
    var b: nat :| WritesDigit(s[3], b);
    var c: nat :| WritesDigit(s[4], c);
    var d: nat :| WritesDigit(s[5], d);
    DigitBelow(s[2], a);
    DigitBelow(s[3], b);
    DigitBelow(s[4], c);
    DigitBelow(s[5], d);
    Nibbles(a, b, c, d);
    assert WritesUnit(s, 4096 * a + 256 * b + 16 * c + d);
  }

  lemma Nibbles(a: nat, b: nat, c: nat, d: nat)
    requires a < 16 && b < 16 && c < 16 && d < 16
    ensures var unit := 4096 * a + 256 * b + 16 * c + d;
      unit < 0x10000 && unit / 4096 == a && unit / 256 % 16 == b && unit / 16 % 16 == c && unit % 16 == d
  {
    var unit := 4096 * a + 256 * b + 16 * c + d;
    assert unit / 256 == 16 * a + b;
    assert unit / 16 == 16 * (16 * a + b) + c;
  }

  lemma DigitBelow(c: char, d: nat)
    requires WritesDigit(c, d)
    ensures d < 16
  {
  }

  /** The repaired text reads strictly, with the meaning a lenient reader gives the original. */
  lemma {:induction false} RepairKeepsMeaning(s: string)
    ensures Strict(Repair(s)) == Right(Lenient(s))
    decreases |s|
  {
    if s != "" {
      var n := EscapeLength(s);
      if n > 0 {
        RepairKeepsMeaning(s[n..]);
        EscapeStays(s, Repair(s[n..]));
      } else if s[0] == '\\' {
        var rest := Repair(s[1..]);
        RepairKeepsMeaning(s[1..]);
        assert ("\\\\" + rest)[2..] == rest;
      } else {
        var rest := Repair(s[1..]);
        RepairKeepsMeaning(s[1..]);
        assert ([s[0]] + rest)[1..] == rest;
      }
    }
  }

  lemma {:induction false} StrictIsUnchanged(s: string)
    requires Strict(s).Right?
    ensures Repair(s) == s
    decreases |s|
  {
    hide EscapeLength;
    if s != "" {
      var n := EscapeLength(s);
      if n > 0 {
        StrictIsUnchanged(s[n..]);
      } else {
        StrictIsUnchanged(s[1..]);
      }
    }
  }

  lemma {:induction false} RepairGrows(s: string)
    ensures |Repair(s)| >= |s| && (!Strict(s).Right? ==> |Repair(s)| > |s|)
    decreases |s|
  {
    hide EscapeLength;
    if s != "" {
      var n := EscapeLength(s);
      RepairGrows(s[if n > 0 then n else 1..]);
    }
  }

  /** Exactly the texts a strict reader accepts are left as they are. */
  lemma UnchangedIffStrict(s: string)
    ensures Repair(s) == s <==> Strict(s).Right?
  {
    RepairGrows(s);
    if Strict(s).Right? {
      StrictIsUnchanged(s);
    }
  }

  lemma {:induction false} RepairTwice(s: string)
    ensures Repair(Repair(s)) == Repair(s)
  {
    RepairKeepsMeaning(s);
    UnchangedIffStrict(Repair(s));
  }
}
