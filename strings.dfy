/** The few Python string operations the application relies on, with the
    properties the rest of the model needs: `sep.join(parts)`, `s.split(c)`,
    `s.strip()` emptiness, `startswith`/`endswith`, `s.replace(pat, "")` and
    `str(n)` for a natural number. */
module Strings {

  // ---------------------------------------------------------------------------
  // sep.join(parts)
  // ---------------------------------------------------------------------------

  /** Python's `sep.join(parts)`. */
  function Join(sep: string, parts: seq<string>): string
    decreases |parts|
  {
    if |parts| == 0 then ""
    else if |parts| == 1 then parts[0]
    else parts[0] + sep + Join(sep, parts[1..])
  }

  /** Where `parts[i]` starts inside `Join(sep, parts)`. */
  function JoinOffset(sep: string, parts: seq<string>, i: nat): nat
    requires i < |parts|
  {
    if i == 0 then 0 else |parts[0]| + |sep| + JoinOffset(sep, parts[1..], i - 1)
  }

  /** From the offset of part `i` on, the joined string reads that part,
      then the separator and the join of the later parts, if there are any. */
  lemma {:induction false} JoinSuffix(sep: string, parts: seq<string>, i: nat)
    requires i < |parts|
    ensures JoinOffset(sep, parts, i) <= |Join(sep, parts)|
    ensures Join(sep, parts)[JoinOffset(sep, parts, i)..] ==
      parts[i] + (if i + 1 < |parts| then sep + Join(sep, parts[i + 1..]) else "")
    decreases i
  {
    if i > 0 {
      var rest := parts[1..];
      JoinSuffix(sep, rest, i - 1);
      assert rest[i - 1] == parts[i];
      assert rest[i..] == parts[i + 1..];
      var head := parts[0] + sep;
      assert Join(sep, parts) == head + Join(sep, rest);
      assert (head + Join(sep, rest))[|head|..] == Join(sep, rest);
    }
  }

  /** Consecutive parts are one separator apart. */
  lemma {:induction false} JoinOffsetStep(sep: string, parts: seq<string>, i: nat)
    requires i + 1 < |parts|
    ensures JoinOffset(sep, parts, i + 1) == JoinOffset(sep, parts, i) + |parts[i]| + |sep|
    decreases i
  {
    if i > 0 {
      JoinOffsetStep(sep, parts[1..], i - 1);
    }
  }

  /** The joined string is the parts in order, each separated from the next
      by exactly one `sep`, and nothing after the last part. */
  lemma JoinAt(sep: string, parts: seq<string>, i: nat)
    requires i < |parts|
    ensures JoinOffset(sep, parts, i) + |parts[i]| <= |Join(sep, parts)|
    ensures Join(sep, parts)[JoinOffset(sep, parts, i)..JoinOffset(sep, parts, i) + |parts[i]|] == parts[i]
    ensures i + 1 < |parts| ==>
      && JoinOffset(sep, parts, i + 1) == JoinOffset(sep, parts, i) + |parts[i]| + |sep|
      && JoinOffset(sep, parts, i + 1) <= |Join(sep, parts)|
      && Join(sep, parts)[JoinOffset(sep, parts, i) + |parts[i]|..JoinOffset(sep, parts, i + 1)] == sep
    ensures i + 1 == |parts| ==> JoinOffset(sep, parts, i) + |parts[i]| == |Join(sep, parts)|
  {
    var joined := Join(sep, parts);
    var off := JoinOffset(sep, parts, i);
    JoinSuffix(sep, parts, i);
    var after := joined[off..];
    assert joined[off..off + |parts[i]|] == after[..|parts[i]|];
    if i + 1 < |parts| {
      JoinOffsetStep(sep, parts, i);
      var end := off + |parts[i]|;
      assert joined[end..end + |sep|] == after[|parts[i]|..|parts[i]| + |sep|];
    }
  }
  /** Part i of a join sits at its offset and is followed by the separator,
      or by the end of the text when it is the last. */
  lemma JoinPartAt(sep: string, parts: seq<string>, i: nat, text: string, part: string, off: nat)
    requires i < |parts| && text == Join(sep, parts) && part == parts[i]
    requires off == JoinOffset(sep, parts, i)
    ensures off + |part| <= |text| && text[off..off + |part|] == part
    ensures i + 1 < |parts| ==> off + |part| + |sep| <= |text| && text[off + |part|..off + |part| + |sep|] == sep
    ensures i + 1 == |parts| ==> off + |part| == |text|
  {
    JoinAt(sep, parts, i);
  }

  /** Lines joined with "\n": line i sits at its offset and is followed by a
      newline, or by the end of the text when it is the last. */
  lemma JoinLinesAt(lines: seq<string>, i: nat, text: string, line: string, off: nat)
    requires i < |lines| && text == Join("\n", lines) && line == lines[i]
    requires off == JoinOffset("\n", lines, i)
    ensures off + |line| <= |text| && text[off..off + |line|] == line
    ensures i + 1 < |lines| ==> off + |line| < |text| && text[off + |line|] == '\n'
    ensures i + 1 == |lines| ==> off + |line| == |text|
  {
    JoinAt("\n", lines, i);
    if i + 1 < |lines| {
      assert text[off + |line|..off + |line| + 1] == "\n";
    }
  }


  // ---------------------------------------------------------------------------
  // s.split(c)
  // ---------------------------------------------------------------------------

  /** Python's `s.split(c)` for a one-character separator: always at least
      one part, and an empty part between two adjacent separators. */
  function Split(s: string, c: char): (parts: seq<string>)
    ensures |parts| >= 1
    decreases |s|
  {
    if |s| == 0 then [""]
    else
      var rest := Split(s[1..], c);
      if s[0] == c then [""] + rest
      else [[s[0]] + rest[0]] + rest[1..]
  }

  /** Joining the parts again with the separator gives back the string. */
  lemma {:induction false} JoinSplit(s: string, c: char)
    ensures Join([c], Split(s, c)) == s
    decreases |s|
  {
    if |s| > 0 {
      var rest := Split(s[1..], c);
      JoinSplit(s[1..], c);
      if s[0] == c {
        assert Split(s, c) == [""] + rest;
        assert Join([c], Split(s, c)) == "" + [c] + Join([c], rest);
      } else {
        var parts := Split(s, c);
        assert parts == [[s[0]] + rest[0]] + rest[1..];
        if |rest| == 1 {
          assert Join([c], rest) == rest[0];
        } else {
          assert Join([c], rest) == rest[0] + [c] + Join([c], rest[1..]);
          assert parts[1..] == rest[1..];
        }
      }
    }
  }

  /** No part contains the separator. */
  lemma {:induction false} SplitPartsFree(s: string, c: char)
    ensures forall k :: 0 <= k < |Split(s, c)| ==> c !in Split(s, c)[k]
    decreases |s|
  {
    if |s| > 0 {
      SplitPartsFree(s[1..], c);
    }
  }

  // ---------------------------------------------------------------------------
  // s.strip(), s.startswith(p), s.endswith(p)
  // ---------------------------------------------------------------------------

  /** Python's `str.isspace()` for one character. */
  predicate IsSpace(ch: char) {
    || ('\U{0009}' <= ch <= '\U{000D}')
    || ('\U{001C}' <= ch <= '\U{0020}')
    || ch == '\U{0085}' || ch == '\U{00A0}' || ch == '\U{1680}'
    || ('\U{2000}' <= ch <= '\U{200A}')
    || ch == '\U{2028}' || ch == '\U{2029}' || ch == '\U{202F}'
    || ch == '\U{205F}' || ch == '\U{3000}'
  }

  /** `not s.strip()`: the string is empty or all whitespace. */
  predicate IsBlank(s: string) {
    forall i :: 0 <= i < |s| ==> IsSpace(s[i])
  }

  predicate StartsWith(s: string, prefix: string) {
    |prefix| <= |s| && s[..|prefix|] == prefix
  }

  predicate EndsWith(s: string, suffix: string) {
    |suffix| <= |s| && s[|s| - |suffix|..] == suffix
  }

  // ---------------------------------------------------------------------------
  // s.replace(pat, "")
  // ---------------------------------------------------------------------------

  /** Python's `s.replace(pat, "")`: occurrences are found left to right,
      without overlap, in the original string. */
  function RemoveAll(s: string, pat: string): string
    requires |pat| > 0
    decreases |s|
  {
    if |s| < |pat| then s
    else if s[..|pat|] == pat then RemoveAll(s[|pat|..], pat)
    else [s[0]] + RemoveAll(s[1..], pat)
  }

  /** `pat` occurs nowhere in `s`. */
  predicate Free(s: string, pat: string) {
    forall i :: 0 <= i <= |s| - |pat| ==> !StartsWith(s[i..], pat)
  }

  /** Removing a one-character pattern removes every copy of that character
      and keeps every other character as often as it occurred. */
  lemma {:induction false} RemoveCharacter(s: string, ch: char)
    ensures ch !in RemoveAll(s, [ch])
    ensures multiset(RemoveAll(s, [ch])) == multiset(s)[ch := 0]
    ensures RemoveAll(s, [ch]) == s <==> ch !in s
    decreases |s|
  {
    if |s| > 0 {
      RemoveCharacter(s[1..], ch);
      assert s == [s[0]] + s[1..];
      if s[0] != ch {
        assert RemoveAll(s, [ch]) == [s[0]] + RemoveAll(s[1..], [ch]);
      } else {
        assert RemoveAll(s, [ch]) == RemoveAll(s[1..], [ch]);
        assert |RemoveAll(s, [ch])| < |s| by {
          assert multiset(RemoveAll(s[1..], [ch])) == multiset(s[1..])[ch := 0];
          assert |multiset(RemoveAll(s[1..], [ch]))| <= |multiset(s[1..])|;
        }
      }
    }
  }

  /** The number of '#' characters `s` starts with. */
  function LeadingHashes(s: string): nat {
    if |s| == 0 || s[0] != '#' then 0 else 1 + LeadingHashes(s[1..])
  }

  lemma {:induction false} LeadingHashesBound(s: string)
    ensures LeadingHashes(s) <= |s|
    ensures StartsWith(s, "###") ==> LeadingHashes(s) >= 3
    ensures StartsWith(s, "###") ==> LeadingHashes(s) == 3 + LeadingHashes(s[3..])
    decreases |s|
  {
    if |s| > 0 && s[0] == '#' {
      LeadingHashesBound(s[1..]);
      if StartsWith(s, "###") {
        assert s[1..][1..][1..] == s[3..];
      }
    }
  }

  /** Removing "###" from text that does not start with it keeps the first
      character and removes from the rest. */
  lemma RemoveAllKeepsHead(s: string)
    requires |s| >= 3 && s[..3] != "###"
    ensures RemoveAll(s, "###") == [s[0]] + RemoveAll(s[1..], "###")
  {
  }

  /** Removing "###" from text that starts with it drops those three
      characters and removes from the rest. */
  lemma RemoveAllSkipsMark(s: string)
    requires |s| >= 3 && s[..3] == "###"
    ensures RemoveAll(s, "###") == RemoveAll(s[3..], "###")
  {
  }

  /** Text that does not start with "##" opens with fewer than two '#'. */
  lemma ShortHashRun(s: string)
    requires |s| >= 2 && s[..2] != "##"
    ensures LeadingHashes(s) < 2
  {
  }

  lemma ModThreeStep(n: nat, m: nat, k: nat)
    requires k == n + 3 && m == n % 3
    ensures m == k % 3
  {
  }

  lemma ModThreeSmall(n: nat, m: nat, k: nat)
    requires n < 2 && m == n % 3 && k == n + 1
    ensures 1 + m == k % 3
  {
  }

  /** `s.replace("###", "")` shrinks a leading run of n '#' characters to
      n % 3 of them. */
  lemma {:induction false} RemoveHeadingLeading(s: string)
    ensures LeadingHashes(RemoveAll(s, "###")) == LeadingHashes(s) % 3
    decreases |s|
  {
    if |s| < 3 {
      LeadingHashesBound(s);
    } else if s[..3] == "###" {
      RemoveAllSkipsMark(s);
      LeadingHashesBound(s);
      RemoveHeadingLeading(s[3..]);
      ModThreeStep(LeadingHashes(s[3..]), LeadingHashes(RemoveAll(s[3..], "###")), LeadingHashes(s));
    } else if s[0] == '#' {
      var r := RemoveAll(s, "###");
      var r' := RemoveAll(s[1..], "###");
      RemoveAllKeepsHead(s);
      RemoveHeadingLeading(s[1..]);
      assert s[1..][..2] != "##" by { assert s[..3] == [s[0]] + s[1..][..2]; }
      ShortHashRun(s[1..]);
      assert r[1..] == r';
      assert LeadingHashes(r) == 1 + LeadingHashes(r');
      ModThreeSmall(LeadingHashes(s[1..]), LeadingHashes(r'), LeadingHashes(s));
    } else {
      RemoveAllKeepsHead(s);
    }
  }

  /** `s.replace("###", "")` leaves no "###" behind. */
  lemma {:induction false} RemoveHeadingFree(s: string)
    ensures Free(RemoveAll(s, "###"), "###")
    decreases |s|
  {
    if |s| < 3 {
    } else if s[..3] == "###" {
      RemoveHeadingFree(s[3..]);
    } else {
      var r := RemoveAll(s, "###");
      var r' := RemoveAll(s[1..], "###");
      RemoveAllKeepsHead(s);
      RemoveHeadingFree(s[1..]);
      forall i | 1 <= i <= |r| - 3
        ensures !StartsWith(r[i..], "###")
      {
        assert r[i..] == r'[i - 1..];
      }
      if StartsWith(r, "###") {
        RemoveHeadingLeading(s[1..]);
        LeadingHashesBound(r);
        LeadingHashesBound(s);
        assert LeadingHashes(r) == 1 + LeadingHashes(r');
      }
      assert r[0..] == r;
    }
  }

  /** `s.replace("###", "")` leaves no "###" behind: a run of n '#'
      characters shrinks to n % 3 of them. */
  lemma RemoveHeadingMarks(s: string)
    ensures Free(RemoveAll(s, "###"), "###")
    ensures LeadingHashes(RemoveAll(s, "###")) == LeadingHashes(s) % 3
  {
    RemoveHeadingFree(s);
    RemoveHeadingLeading(s);
  }


  // ---------------------------------------------------------------------------
  // str(n) for n >= 0
  // ---------------------------------------------------------------------------

  function DigitChar(d: nat): char
    requires d < 10
  {
    ('0' as int + d) as char
  }

  predicate IsDigit(ch: char) {
    '0' <= ch <= '9'
  }

  /** Python's `str(n)` for a natural number: decimal, no leading zeros. */
  function NatToString(n: nat): string
  {
    if n < 10 then [DigitChar(n)] else NatToString(n / 10) + [DigitChar(n % 10)]
  }

  /** `int(s)` for a string of decimal digits. */
  function ParseDecimal(s: string): nat
    requires forall i :: 0 <= i < |s| ==> IsDigit(s[i])
  {
    if |s| == 0 then 0
    else
      assert IsDigit(s[|s| - 1]);
      ParseDecimal(s[..|s| - 1]) * 10 + ((s[|s| - 1] as int) - ('0' as int))
  }

  /** `str(n)` is a non-empty string of digits without a leading zero, a
      single digit exactly for numbers below ten. */
  lemma {:induction false} NatToStringDigits(n: nat)
    ensures |NatToString(n)| >= 1
    ensures forall i :: 0 <= i < |NatToString(n)| ==> IsDigit(NatToString(n)[i])
    ensures |NatToString(n)| > 1 ==> NatToString(n)[0] != '0'
    ensures n < 10 <==> |NatToString(n)| == 1
  {
    if n >= 10 {
      NatToStringDigits(n / 10);
    }
  }

  /** `str(n)` reads back as `n`. */
  lemma {:induction false} NatToStringRoundTrip(n: nat)
    ensures |NatToString(n)| >= 1
    ensures forall i :: 0 <= i < |NatToString(n)| ==> IsDigit(NatToString(n)[i])
    ensures |NatToString(n)| > 1 ==> NatToString(n)[0] != '0'
    ensures ParseDecimal(NatToString(n)) == n
  {
    NatToStringDigits(n);
    if n >= 10 {
      NatToStringRoundTrip(n / 10);
      var s := NatToString(n);
      assert s[..|s| - 1] == NatToString(n / 10);
    }
  }

  /** Distinct numbers print differently. */
  lemma NatToStringInjective(a: nat, b: nat)
    requires NatToString(a) == NatToString(b)
    ensures a == b
  {
    NatToStringRoundTrip(a);
    NatToStringRoundTrip(b);
  }
}
