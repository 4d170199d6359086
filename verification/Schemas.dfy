/** The payer address as the request schema normalises it. */
module Schemas {
  import opened Sums
  import opened Tables

  predicate IsSpace(c: char) {
    c == ' ' || '\t' <= c <= '\r' || '\U{001C}' <= c <= '\U{001F}'
  }

  function LeftStrip(s: string): string {
    if s != [] && IsSpace(s[0]) then LeftStrip(s[1..]) else s
  }

  function RightStrip(s: string): string {
    if s != [] && IsSpace(s[|s| - 1]) then RightStrip(s[..|s| - 1]) else s
  }

  function Strip(s: string): string {
    RightStrip(LeftStrip(s))
  }

  function LowerChar(c: char): char {
    if 'A' <= c <= 'Z' then (c as int + 32) as char else c
  }

  function Lower(s: string): (r: string)
    ensures |r| == |s| && forall i :: 0 <= i < |s| ==> r[i] == LowerChar(s[i])
  {
    seq(|s|, i requires 0 <= i < |s| => LowerChar(s[i]))
  }

  /** `v.strip().lower()`, refused unless it looks like an address. */
  function NormalizeVpa(raw: string): Option<string> {
    var v := Lower(Strip(raw));
    if '@' !in v || |v| < 5 || |v| > 255 then None else Some(v)
  }

  lemma {:induction false} RightStripEnds(s: string)
    ensures RightStrip(s) <= s
    ensures RightStrip(s) != [] ==> !IsSpace(RightStrip(s)[|RightStrip(s)| - 1])
  {
    if s != [] && IsSpace(s[|s| - 1]) { RightStripEnds(s[..|s| - 1]); }
  }

  lemma {:induction false} LeftStripEnds(s: string)
    ensures LeftStrip(s) != [] ==> !IsSpace(LeftStrip(s)[0])
  {
    if s != [] && IsSpace(s[0]) { LeftStripEnds(s[1..]); }
  }

  /** What counts as a blank: space, tab, line feed, vertical tab, form feed, carriage return, and four separators. */
  predicate Blank(c: char) {
    c in " \t\n\U{000B}\U{000C}\r\U{001C}\U{001D}\U{001E}\U{001F}"
  }

  /** `s[a..b]` is what is left of `s` without the blanks around it. */
  predicate IsCore(s: string, a: nat, b: nat) {
    && a < b <= |s| && !Blank(s[a]) && !Blank(s[b - 1])
    && (forall i :: 0 <= i < a ==> Blank(s[i])) && (forall i :: b <= i < |s| ==> Blank(s[i]))
  }

  lemma {:induction false} LeftStripCuts(s: string) returns (a: nat)
    ensures a <= |s| && LeftStrip(s) == s[a..] && forall i :: 0 <= i < a ==> Blank(s[i])
    ensures a < |s| ==> !Blank(s[a])
  {
    a := 0;
    if s != [] && IsSpace(s[0]) {
      var rest := LeftStripCuts(s[1..]);
      a := rest + 1;
      forall i | 0 <= i < a ensures Blank(s[i]) { if i > 0 { assert s[i] == s[1..][i - 1]; } }
    }
  }

  lemma {:induction false} RightStripCuts(s: string) returns (b: nat)
    ensures b <= |s| && RightStrip(s) == s[..b] && forall i :: b <= i < |s| ==> Blank(s[i])
    ensures b > 0 ==> !Blank(s[b - 1])
  {
    b := |s|;
    if s != [] && IsSpace(s[|s| - 1]) {
      b := RightStripCuts(s[..|s| - 1]);
    }
  }

  lemma StripIsCore(s: string, a: nat, b: nat)
    requires IsCore(s, a, b)
    ensures Strip(s) == s[a..b]
  {
    var left := LeftStripCuts(s);
    assert left == a;
    var right := RightStripCuts(s[a..]);
    assert s[a..][b - a - 1] == s[b - 1] && right >= b - a;
    assert s[a..][right - 1] == s[a + right - 1];
    assert s[a..][..b - a] == s[a..b];
  }

  lemma CoreExists(s: string) returns (a: nat, b: nat)
    requires Strip(s) != []
    ensures IsCore(s, a, b)
  {
    a := LeftStripCuts(s);
    var right := RightStripCuts(s[a..]);
    b := a + right;
    forall i | b <= i < |s| ensures Blank(s[i]) { assert s[i] == s[a..][i - a]; }
  }

  /** Exactly which addresses are accepted, and as what: without the blanks around it an address has 5 to 255
      characters, one of them '@', and its capital letters are stored as small ones. */
  lemma NormalizedExactlyWhen(raw: string, v: string)
    ensures NormalizeVpa(raw) == Some(v)
       <==> && 5 <= |v| <= 255 && '@' in v
            && exists a: nat, b: nat :: IsCore(raw, a, b) && |v| == b - a
                 && forall i :: 0 <= i < |v| ==>
                      v[i] == if 'A' <= raw[a + i] <= 'Z' then 'a' + (raw[a + i] - 'A') else raw[a + i]
  {
    if NormalizeVpa(raw) == Some(v) {
      var a, b := CoreExists(raw);
      StripIsCore(raw, a, b);
    }
    forall a: nat, b: nat | IsCore(raw, a, b) && |v| == b - a
      ensures Lower(Strip(raw)) == v
         <==> forall i :: 0 <= i < |v| ==>
                v[i] == if 'A' <= raw[a + i] <= 'Z' then 'a' + (raw[a + i] - 'A') else raw[a + i]
    {
      StripIsCore(raw, a, b);
    }
  }

  /** What the schema lets through is a valid address that it would let through again unchanged, so looking up a payer
      by the stored address is looking it up by any spelling that was accepted. */
  lemma NormalizedIsStable(raw: string)
    requires NormalizeVpa(raw).Some?
    ensures ValidVpa(NormalizeVpa(raw).value) && NormalizeVpa(NormalizeVpa(raw).value) == NormalizeVpa(raw)
  {
    LeftStripEnds(raw);
    RightStripEnds(LeftStrip(raw));
    var inner, v := Strip(raw), NormalizeVpa(raw).value;
    assert inner[0] == LeftStrip(raw)[0];
    assert !IsSpace(v[0]) && !IsSpace(v[|v| - 1]);
    assert Strip(v) == v;
    assert Lower(v) == v;
  }

  lemma {:induction false} LeftStripAppend(s: string, c: char)
    requires IsSpace(c)
    ensures LeftStrip(s + [c]) == if LeftStrip(s) == [] then [] else LeftStrip(s) + [c]
  {
    if s == [] {
      assert s + [c] == [c];
      assert LeftStrip([c][1..]) == [];
    } else if IsSpace(s[0]) {
      assert (s + [c])[1..] == s[1..] + [c];
      LeftStripAppend(s[1..], c);
    }
  }

  lemma {:induction false} LeftStripLower(s: string)
    ensures LeftStrip(Lower(s)) == Lower(LeftStrip(s))
  {
    if s != [] && IsSpace(s[0]) {
      assert Lower(s)[1..] == Lower(s[1..]);
      LeftStripLower(s[1..]);
    }
  }

  lemma {:induction false} RightStripLower(s: string)
    ensures RightStrip(Lower(s)) == Lower(RightStrip(s))
  {
    if s != [] && IsSpace(s[|s| - 1]) {
      assert Lower(s)[..|s| - 1] == Lower(s[..|s| - 1]);
      RightStripLower(s[..|s| - 1]);
    }
  }

  /** Neither surrounding blanks nor letter case make another payer. */
  lemma SpellingIsIrrelevant(raw: string, blank: char)
    requires IsSpace(blank)
    ensures NormalizeVpa([blank] + raw) == NormalizeVpa(raw) == NormalizeVpa(raw + [blank]) == NormalizeVpa(Lower(raw))
  {
    assert ([blank] + raw)[1..] == raw;
    LeftStripAppend(raw, blank);
    var left := LeftStrip(raw);
    assert (left + [blank])[..|left|] == left;
    LeftStripLower(raw);
    RightStripLower(left);
    assert Lower(Lower(Strip(raw))) == Lower(Strip(raw));
  }
}
