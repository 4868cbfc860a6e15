/** The JavaScript string primitives the store relies on, over `seq<char>`:
    case mapping, prefix and substring tests, global token replacement,
    `join`/`split` on a one-character separator, trimming, and the digit
    strings of `Number.prototype.toString(radix)`.
    Case mapping and white space cover ASCII only. */
module Text {

  /** `toUpperCase` of one character (ASCII letters). */
  function UpperChar(c: char): char
  {
    if 'a' <= c <= 'z' then (c as int - 32) as char else c
  }

  /** `toLowerCase` of one character (ASCII letters). */
  function LowerChar(c: char): char
  {
    if 'A' <= c <= 'Z' then (c as int + 32) as char else c
  }

  function Upper(s: string): string
  {
    seq(|s|, i requires 0 <= i < |s| => UpperChar(s[i]))
  }

  function Lower(s: string): string
  {
    seq(|s|, i requires 0 <= i < |s| => LowerChar(s[i]))
  }

  /** Lower-casing twice is lower-casing once: a key stored lower-cased is
      found again by a lower-cased lookup. */
  lemma LowerIdempotent(s: string)
    ensures Lower(Lower(s)) == Lower(s)
  {
    forall i | 0 <= i < |s|
      ensures Lower(Lower(s))[i] == Lower(s)[i]
    {
      assert Lower(s)[i] == LowerChar(s[i]);
    }
  }

  /** Case mapping works character by character. */
  lemma LowerAppend(a: string, b: string)
    ensures Lower(a + b) == Lower(a) + Lower(b)
  {
  }

  /** `s.startsWith(p)` */
  predicate StartsWith(s: string, p: string)
  {
    |p| <= |s| && s[..|p|] == p
  }

  /** `t` occurs in `s` starting at index `i`. */
  predicate OccursAt(s: string, t: string, i: int)
  {
    0 <= i && i + |t| <= |s| && s[i..i + |t|] == t
  }

  /** `s.includes(t)` */
  predicate Contains(s: string, t: string)
  {
    exists i | 0 <= i <= |s| - |t| :: OccursAt(s, t, i)
  }

  /** `s.replace(/t/g, v)` for a literal token `t`: the matches are found
      left to right and do not overlap. (The `$` patterns JavaScript expands
      inside a replacement string are not modelled.) */
  function ReplaceAll(s: string, t: string, v: string): (r: string)
    requires |t| > 0
    ensures v == t ==> r == s
    ensures |s| < |t| ==> r == s
    decreases |s|
  {
    if |s| < |t| then s
    else if s[..|t|] == t then
      var r := v + ReplaceAll(s[|t|..], t, v);
      assert v == t ==> r == s[..|t|] + s[|t|..];
      r
    else
      var r := [s[0]] + ReplaceAll(s[1..], t, v);
      assert v == t ==> r == [s[0]] + s[1..];
      r
  }

  /** Text that does not contain the token comes back unchanged. */
  lemma {:induction false} ReplaceAllAbsent(s: string, t: string, v: string)
    requires |t| > 0
    requires !Contains(s, t)
    ensures ReplaceAll(s, t, v) == s
    decreases |s|
  {
    if |s| >= |t| {
      assert s[..|t|] != t by {
        if s[..|t|] == t {
          assert OccursAt(s, t, 0);
        }
      }
      forall i
        ensures !OccursAt(s[1..], t, i)
      {
        if OccursAt(s[1..], t, i) {
          assert s[1..][i..i + |t|] == s[i + 1..i + 1 + |t|];
          assert OccursAt(s, t, i + 1);
        }
      }
      ReplaceAllAbsent(s[1..], t, v);
    }
  }

  /** A token at the very start is replaced and scanning resumes after it. */
  lemma ReplaceAllLeading(t: string, s: string, v: string)
    requires |t| > 0
    ensures ReplaceAll(t + s, t, v) == v + ReplaceAll(s, t, v)
  {
    assert (t + s)[..|t|] == t;
    assert (t + s)[|t|..] == s;
  }

  /** `parts.join(sep)` */
  function Join(parts: seq<string>, sep: char): (r: string)
    ensures |parts| > 0 ==> StartsWith(r, parts[0])
    ensures |parts| == 1 ==> r == parts[0]
    ensures |parts| > 1 ==> |r| > |parts[0]| && r[|parts[0]|] == sep
    decreases |parts|
  {
    if |parts| == 0 then ""
    else if |parts| == 1 then parts[0]
    else parts[0] + [sep] + Join(parts[1..], sep)
  }

  lemma JoinFour(a: string, b: string, c: string, d: string, sep: char)
    ensures Join([a, b, c, d], sep) == a + [sep] + b + [sep] + c + [sep] + d
  {
    assert [c, d][1..] == [d];
    assert Join([c, d], sep) == c + [sep] + d;
    assert [b, c, d][1..] == [c, d];
    assert Join([b, c, d], sep) == b + [sep] + (c + [sep] + d);
    assert [a, b, c, d][1..] == [b, c, d];
    assert Join([a, b, c, d], sep) == a + [sep] + (b + [sep] + (c + [sep] + d));
  }

  /** The index of the first `c` in `s` (`s.indexOf(c)` when present). */
  function IndexOfChar(s: string, c: char): (r: nat)
    requires c in s
    ensures r < |s| && s[r] == c && c !in s[..r]
  {
    if s[0] == c then 0
    else
      assert c in s[1..] by { assert s == [s[0]] + s[1..]; }
      var k := IndexOfChar(s[1..], c);
      assert s[..k + 1] == [s[0]] + s[1..][..k];
      k + 1
  }

  /** `s.split(sep)` for a one-character separator. */
  function Split(s: string, sep: char): (r: seq<string>)
    ensures |r| > 0
    decreases |s|
  {
    if sep !in s then [s]
    else
      var i := IndexOfChar(s, sep);
      [s[..i]] + Split(s[i + 1..], sep)
  }

  /** Splitting a joined list gives the list back when no part contains the
      separator: the parts of a generated key or of a list of lines can be
      recovered from the string. */
  lemma {:induction false} SplitJoin(parts: seq<string>, sep: char)
    requires |parts| > 0
    requires forall i :: 0 <= i < |parts| ==> sep !in parts[i]
    ensures Split(Join(parts, sep), sep) == parts
    decreases |parts|
  {
    if |parts| > 1 {
      var head, rest := parts[0], Join(parts[1..], sep);
      var s := head + [sep] + rest;
      assert s == Join(parts, sep);
      assert s[|head|] == sep;
      assert sep in s;
      var i := IndexOfChar(s, sep);
      assert s[..|head|] == head;
      assert i == |head|;
      assert s[..i] == head;
      assert s[i + 1..] == rest;
      SplitJoin(parts[1..], sep);
    }
  }

  /** The white space that `trim` removes and `/\s+/` matches (ASCII). */
  predicate IsSpace(c: char)
  {
    c == ' ' || c == '\t' || c == '\n' || c == '\r' || c as int == 11 || c as int == 12
  }

  /** `s` without its leading white space: what is removed is all white
      space, and what is left does not start with any. */
  function TrimStart(s: string): (r: string)
    ensures |r| <= |s|
    ensures r == [] || !IsSpace(r[0])
    ensures s == s[..|s| - |r|] + r
    decreases |s|
  {
    if s != [] && IsSpace(s[0]) then TrimStart(s[1..]) else s
  }

  /** What `TrimStart` removes is white space, all of it. */
  lemma {:induction false} TrimStartRemovesSpace(s: string)
    ensures forall i :: 0 <= i < |s| - |TrimStart(s)| ==> IsSpace(s[i])
    decreases |s|
  {
    if s != [] && IsSpace(s[0]) {
      TrimStartRemovesSpace(s[1..]);
      assert forall i :: 1 <= i < |s| - |TrimStart(s)| ==> s[i] == s[1..][i - 1];
    }
  }

  /** `s` without its trailing white space: what is removed is all white
      space, and what is left does not end with any. */
  function TrimEnd(s: string): (r: string)
    ensures |r| <= |s|
    ensures r == [] || !IsSpace(r[|r| - 1])
    ensures s == r + s[|r|..]
    decreases |s|
  {
    if s != [] && IsSpace(s[|s| - 1]) then TrimEnd(s[..|s| - 1]) else s
  }

  /** What `TrimEnd` removes is white space, all of it. */
  lemma {:induction false} TrimEndRemovesSpace(s: string)
    ensures forall i :: |TrimEnd(s)| <= i < |s| ==> IsSpace(s[i])
    decreases |s|
  {
    if s != [] && IsSpace(s[|s| - 1]) {
      TrimEndRemovesSpace(s[..|s| - 1]);
    }
  }

  /** `s.trim()` */
  function Trim(s: string): (r: string)
    ensures r == [] || (!IsSpace(r[0]) && !IsSpace(r[|r| - 1]))
    ensures OccursAt(s, r, |s| - |TrimStart(s)|)
  {
    TrimFacts(s);
    TrimEnd(TrimStart(s))
  }

  lemma TrimFacts(s: string)
    ensures var t := TrimStart(s); var r := TrimEnd(t);
      && (r == [] || (!IsSpace(r[0]) && !IsSpace(r[|r| - 1])))
      && OccursAt(s, r, |s| - |TrimStart(s)|)
  {
    var t := TrimStart(s);
    var r := TrimEnd(t);
    MiddleOccurs(s[..|s| - |t|], t, r, t[|r|..], s);
  }

  /** A piece `r` that starts `t`, where `t` ends `s`, occurs in `s` right
      where `t` begins; when `t` starts and `r` ends with a non-space, `r`
      has no white space at either end. */
  lemma MiddleOccurs(head: string, t: string, r: string, tail: string, s: string)
    requires s == head + t && t == r + tail
    requires t == [] || !IsSpace(t[0])
    requires r == [] || !IsSpace(r[|r| - 1])
    ensures OccursAt(s, r, |s| - |t|)
    ensures r == [] || (!IsSpace(r[0]) && !IsSpace(r[|r| - 1]))
  {
    assert s == head + r + tail;
    assert s[|head|..|head| + |r|] == r;
    if r != [] {
      assert r[0] == t[0];
    }
  }

  /** The first element of `s.split(/\s+/)` for an already trimmed `s`:
      everything before the first white space. */
  function FirstWord(s: string): (r: string)
    ensures StartsWith(s, r)
    ensures forall i :: 0 <= i < |r| ==> !IsSpace(r[i])
    ensures |r| == |s| || IsSpace(s[|r|])
    decreases |s|
  {
    if s == [] || IsSpace(s[0]) then []
    else [s[0]] + FirstWord(s[1..])
  }

  /** The digit for `d` in `toString(radix)`: `0`-`9`, then `a`-`z`. */
  function DigitChar(d: nat): char
    requires d < 36
  {
    if d < 10 then ('0' as int + d) as char else ('a' as int + d - 10) as char
  }

  /** What `parseInt` reads a digit as, in either case; 36 for a non-digit. */
  function DigitValue(c: char): nat
  {
    if '0' <= c <= '9' then c as int - '0' as int
    else if 'a' <= c <= 'z' then c as int - 'a' as int + 10
    else if 'A' <= c <= 'Z' then c as int - 'A' as int + 10
    else 36
  }

  lemma DivModStep(n: nat, b: nat)
    requires 2 <= b <= n
    ensures n / b < n && n % b < b && (n / b) * b + n % b == n
  {
  }

  lemma DigitCharValue(d: nat)
    requires d < 36
    ensures DigitValue(DigitChar(d)) == d
  {
  }

  /** `n.toString(base)` for a non-negative integer `n`. */
  function Digits(n: nat, base: nat): (r: string)
    requires 2 <= base <= 36
    ensures |r| > 0
    ensures forall i :: 0 <= i < |r| ==> DigitValue(r[i]) < base
    decreases n
  {
    if n < base then
      DigitCharValue(n);
      [DigitChar(n)]
    else
      DivModStep(n, base);
      var q, d := n / base, n % base;
      DigitCharValue(d);
      Digits(q, base) + [DigitChar(d)]
  }

  /** `parseInt(s, base)` for a string made only of digits. */
  function Value(s: string, base: nat): nat
    decreases |s|
  {
    if s == [] then 0
    else Value(s[..|s| - 1], base) * base + DigitValue(s[|s| - 1])
  }

  /** `parseInt(n.toString(base), base) == n`. */
  lemma {:induction false} ValueOfDigits(n: nat, base: nat)
    requires 2 <= base <= 36
    ensures Value(Digits(n, base), base) == n
    decreases n
  {
    if n < base {
      DigitCharValue(n);
    } else {
      DivModStep(n, base);
      var q, r := n / base, n % base;
      ValueOfDigits(q, base);
      DigitCharValue(r);
      var d := Digits(n, base);
      assert d == Digits(q, base) + [DigitChar(r)];
      assert d[..|d| - 1] == Digits(q, base);
      assert Value(d, base) == q * base + r;
    }
  }

  /** Upper-casing a digit string does not change what it reads as. */
  lemma {:induction false} ValueOfUpper(s: string, base: nat)
    ensures Value(Upper(s), base) == Value(s, base)
    decreases |s|
  {
    if s != [] {
      var u := Upper(s);
      assert u[..|u| - 1] == Upper(s[..|s| - 1]);
      ValueOfUpper(s[..|s| - 1], base);
    }
  }

  /** Base-36 digit text, as `Math.random().toString(36)` produces after
      its leading `0.` and `Number.prototype.toString(36)` produces. */
  predicate IsBase36(s: string)
  {
    forall i :: 0 <= i < |s| ==> DigitValue(s[i]) < 36
  }

  /** Digit text has no `-`, upper-cased or not: it is safe between dashes. */
  lemma Base36LacksDash(s: string)
    requires IsBase36(s)
    ensures '-' !in s && '-' !in Upper(s)
  {
    assert DigitValue('-') == 36;
    UpperKeepsAbsent(s, '-');
  }

  /** Upper-casing keeps what each digit reads as. */
  lemma UpperKeepsDigitValues(s: string)
    ensures |Upper(s)| == |s|
    ensures forall i :: 0 <= i < |s| ==> DigitValue(Upper(s)[i]) == DigitValue(s[i])
  {
  }

  /** Upper-casing cannot create a character that is not a letter: a
      separator absent from `s` is absent from `Upper(s)`. */
  lemma UpperKeepsAbsent(s: string, c: char)
    requires !('a' <= c <= 'z') && !('A' <= c <= 'Z')
    requires c !in s
    ensures c !in Upper(s)
  {
    forall i | 0 <= i < |s|
      ensures Upper(s)[i] != c
    {
      assert s[i] != c;
    }
  }
}
