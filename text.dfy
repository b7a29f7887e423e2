// The few JavaScript string operations the controller relies on:
// `String.prototype.trim` (used as a blank test), `toLowerCase` and
// `includes` (the praise test), and `Number.prototype.toString` for the
// decimal clock reading inside message ids.
module Text {

  /** The characters ECMAScript's `trim` strips: WhiteSpace and LineTerminator. */
  predicate IsWhitespace(c: char)
  {
    c == ' ' || c == '\t' || c == '\n' || c == '\r' || c == '\U{000B}' || c == '\U{000C}'
    || c == '\U{00A0}' || c == '\U{1680}' || ('\U{2000}' <= c <= '\U{200A}')
    || c == '\U{2028}' || c == '\U{2029}' || c == '\U{202F}' || c == '\U{205F}'
    || c == '\U{3000}' || c == '\U{FEFF}'
  }

  /** Drops leading whitespace. */
  function TrimStart(s: string): (r: string)
    ensures |r| <= |s|
    decreases |s|
  {
    if s != [] && IsWhitespace(s[0]) then TrimStart(s[1..]) else s
  }

  /** Drops trailing whitespace. */
  function TrimEnd(s: string): (r: string)
    ensures |r| <= |s|
    decreases |s|
  {
    if s != [] && IsWhitespace(s[|s| - 1]) then TrimEnd(s[..|s| - 1]) else s
  }

  /** `TrimStart` leaves the suffix that starts at the first character that is not whitespace. */
  lemma {:induction false} TrimStartSuffix(s: string)
    ensures var r := TrimStart(s);
      && r == s[|s| - |r|..]
      && (forall i :: 0 <= i < |s| - |r| ==> IsWhitespace(s[i]))
      && (r != [] ==> !IsWhitespace(r[0]))
    decreases |s|
  {
    if s != [] && IsWhitespace(s[0]) {
      TrimStartSuffix(s[1..]);
    }
  }

  /** `TrimEnd` leaves the prefix that ends at the last character that is not whitespace. */
  lemma {:induction false} TrimEndPrefix(s: string)
    ensures var r := TrimEnd(s);
      && r == s[..|r|]
      && (forall i :: |r| <= i < |s| ==> IsWhitespace(s[i]))
      && (r != [] ==> !IsWhitespace(r[|r| - 1]))
    decreases |s|
  {
    if s != [] && IsWhitespace(s[|s| - 1]) {
      TrimEndPrefix(s[..|s| - 1]);
    }
  }

  function Trim(s: string): string
  {
    TrimEnd(TrimStart(s))
  }

  /** `s.trim()` is falsy, i.e. the empty string. */
  predicate IsBlank(s: string): (blank: bool)
    ensures blank ==> forall i :: 0 <= i < |s| ==> IsWhitespace(s[i])
  {
    TrimStartSuffix(s);
    TrimEndPrefix(TrimStart(s));
    Trim(s) == []
  }

  /** A string is blank exactly when every one of its characters is whitespace. */
  lemma BlankIffAllWhitespace(s: string)
    ensures IsBlank(s) <==> forall i :: 0 <= i < |s| ==> IsWhitespace(s[i])
  {
    var a := TrimStart(s);
    TrimStartSuffix(s);
    TrimEndPrefix(a);
    if !IsBlank(s) {
      assert a != [] && a[0] == s[|s| - |a|];
    }
  }

  lemma EmptyIsBlank()
    ensures IsBlank("")
  {
  }

  function LowerChar(c: char): char
  {
    if 'A' <= c <= 'Z' then (c as int + 32) as char else c
  }

  /** `toLowerCase` on the ASCII letters; every other character is kept. */
  function Lower(s: string): (r: string)
    ensures |r| == |s|
    ensures forall i :: 0 <= i < |r| ==> !('A' <= r[i] <= 'Z')
    ensures forall i :: 0 <= i < |s| && !('A' <= s[i] <= 'Z') ==> r[i] == s[i]
    ensures forall i :: 0 <= i < |s| && 'A' <= s[i] <= 'Z' ==> r[i] == (s[i] as int + 32) as char
  {
    seq(|s|, i requires 0 <= i < |s| => LowerChar(s[i]))
  }

  predicate OccursAt(s: string, sub: string, i: int)
  {
    0 <= i && i + |sub| <= |s| && s[i..i + |sub|] == sub
  }

  /** `s.includes(sub)`. */
  function Contains(s: string, sub: string): (found: bool)
    ensures found ==> |sub| <= |s|
    decreases |s|
  {
    if |sub| > |s| then false
    else if s[..|sub|] == sub then true
    else Contains(s[1..], sub)
  }

  /** `Contains` holds exactly when `sub` occurs at some position of `s`. */
  lemma {:induction false} ContainsIff(s: string, sub: string)
    ensures Contains(s, sub) <==> exists i :: OccursAt(s, sub, i)
    decreases |s|
  {
    if |sub| > |s| {
    } else if s[..|sub|] == sub {
      assert OccursAt(s, sub, 0);
    } else {
      ContainsIff(s[1..], sub);
      if Contains(s[1..], sub) {
        var i :| OccursAt(s[1..], sub, i);
        assert s[i + 1..i + 1 + |sub|] == s[1..][i..i + |sub|];
        assert OccursAt(s, sub, i + 1);
      } else {
        forall i | OccursAt(s, sub, i) ensures false {
          if i != 0 {
            assert s[1..][i - 1..i - 1 + |sub|] == s[i..i + |sub|];
            assert OccursAt(s[1..], sub, i - 1);
          }
        }
      }
    }
  }

  const PraisePhrases: seq<string> := ["good form", "perfect", "great job"]

  /** The model text matches one of the praise phrases, ignoring case. */
  predicate IsPraise(text: string): (praise: bool)
    ensures praise ==> |text| >= |"perfect"|
  {
    var lower := Lower(text);
    Contains(lower, "good form") || Contains(lower, "perfect") || Contains(lower, "great job")
  }

  /** Praise is exactly an occurrence of one of the phrases somewhere in the lowered text. */
  lemma IsPraiseIff(text: string)
    ensures IsPraise(text) <==> exists p, i :: p in PraisePhrases && OccursAt(Lower(text), p, i)
  {
    var lower := Lower(text);
    ContainsIff(lower, "good form");
    ContainsIff(lower, "perfect");
    ContainsIff(lower, "great job");
    if exists p, i :: p in PraisePhrases && OccursAt(lower, p, i) {
      var p, i :| p in PraisePhrases && OccursAt(lower, p, i);
      assert p == "good form" || p == "perfect" || p == "great job";
    }
  }

  /** Praise is recognised wherever the phrase occurs, in any letter case. */
  lemma PraiseAnyCase(text: string, i: nat)
    requires i + 7 <= |text|
    requires Lower(text[i..i + 7]) == "perfect"
    ensures IsPraise(text)
  {
    assert Lower(text)[i..i + 7] == Lower(text[i..i + 7]);
    assert OccursAt(Lower(text), "perfect", i);
    ContainsIff(Lower(text), "perfect");
  }

  /** The closing turn of a typical coached set is recognised as praise. */
  lemma GreatJobIsPraise()
    ensures IsPraise("Great job, keep going")
  {
    var lower := Lower("Great job, keep going");
    assert lower[0..9] == "great job";
    assert OccursAt(lower, "great job", 0);
    ContainsIff(lower, "great job");
  }

  function DigitChar(d: nat): char
    requires d < 10
  {
    ('0' as int + d) as char
  }

  predicate IsDigits(s: string)
  {
    forall i :: 0 <= i < |s| ==> '0' <= s[i] <= '9'
  }

  /** `n.toString()` for a non-negative integer: a non-empty run of decimal digits. */
  function DecimalString(n: nat): (r: string)
    ensures |r| >= 1 && IsDigits(r)
  {
    if n < 10 then [DigitChar(n)] else DecimalString(n / 10) + [DigitChar(n % 10)]
  }

  /** Reads a run of decimal digits back as a number. */
  function DecimalValue(s: string): nat
    requires IsDigits(s)
  {
    if s == [] then 0 else 10 * DecimalValue(s[..|s| - 1]) + (s[|s| - 1] as int - '0' as int)
  }

  lemma {:induction false} DecimalRoundTrip(n: nat)
    ensures DecimalValue(DecimalString(n)) == n
  {
    if n >= 10 {
      DecimalRoundTrip(n / 10);
      var r := DecimalString(n);
      assert r[..|r| - 1] == DecimalString(n / 10);
    }
  }

  /** Distinct clock readings give distinct decimal strings, and so distinct id prefixes. */
  lemma DecimalStringInjective(m: nat, n: nat)
    requires m != n
    ensures DecimalString(m) != DecimalString(n)
  {
    DecimalRoundTrip(m);
    DecimalRoundTrip(n);
  }
}
