/** The few facts about Go strings that the fiscal code relies on. */
module Text {
  predicate IsSpace(c: char) {
    || '\t' <= c <= '\r'
    || c in [' ', '\U{0085}', '\U{00A0}', '\U{1680}', '\U{2028}', '\U{2029}', '\U{202F}', '\U{205F}', '\U{3000}']
    || '\U{2000}' <= c <= '\U{200A}'
  }

  /** The 25 white-space code points of Unicode. */
  lemma SpacesAreListed(c: char)
    ensures IsSpace(c) <==>
            c as int in {0x09, 0x0A, 0x0B, 0x0C, 0x0D, 0x20, 0x85, 0xA0, 0x1680, 0x2000, 0x2001, 0x2002, 0x2003, 0x2004,
                         0x2005, 0x2006, 0x2007, 0x2008, 0x2009, 0x200A, 0x2028, 0x2029, 0x202F, 0x205F, 0x3000}
  {
  }

  /** `strings.TrimSpace(s) == ""`. */
  predicate Blank(s: string) {
    forall i | 0 <= i < |s| :: IsSpace(s[i])
  }

  /** `strings.TrimSpace`. */
  function TrimSpace(s: string): string
    decreases |s|
  {
    if s == [] then s
    else if IsSpace(s[0]) then TrimSpace(s[1..])
    else if IsSpace(s[|s| - 1]) then TrimSpace(s[..|s| - 1])
    else s
  }

  /** Only the blanks at both ends go. */
  lemma {:induction false} TrimCutsTheEnds(before: string, s: string, after: string)
    requires Blank(before) && Blank(after) && (s != "" ==> !IsSpace(s[0]) && !IsSpace(s[|s| - 1]))
    ensures TrimSpace(before + s + after) == s
    decreases |before| + |after|
  {
    var whole := before + s + after;
    if before != [] {
      assert whole[1..] == before[1..] + s + after;
      TrimCutsTheEnds(before[1..], s, after);
    } else if after != [] {
      if s == [] {
        assert whole[1..] == before + s + after[1..];
        TrimCutsTheEnds(before, s, after[1..]);
      } else {
        assert whole[..|whole| - 1] == before + s + after[..|after| - 1];
        TrimCutsTheEnds(before, s, after[..|after| - 1]);
      }
    }
  }

  /** `strings.Contains`. */
  predicate Contains(s: string, part: string) {
    part <= s || (s != [] && Contains(s[1..], part))
  }

  /** The part is there from position `i` on. */
  predicate OccursAt(s: string, part: string, i: int) {
    0 <= i <= |s| && part <= s[i..]
  }

  lemma {:induction false} ContainsIff(s: string, part: string)
    ensures Contains(s, part) <==> exists i :: OccursAt(s, part, i)
  {
    assert s[0..] == s && (part <= s ==> OccursAt(s, part, 0));
    if s != [] {
      ContainsIff(s[1..], part);
      if i :| OccursAt(s, part, i) {
        if i > 0 { assert s[1..][i - 1..] == s[i..] && OccursAt(s[1..], part, i - 1); }
      }
      if i :| OccursAt(s[1..], part, i) {
        assert s[1..][i..] == s[i + 1..] && OccursAt(s, part, i + 1);
      }
    }
  }

  function LowerChar(c: char): char {
    if 'A' <= c <= 'Z' then (c as int + 32) as char else c
  }

  /** `strings.ToLower`, on ASCII letters. */
  function ToLower(s: string): (r: string)
    ensures |r| == |s|
  {
    seq(|s|, i requires 0 <= i < |s| => LowerChar(s[i]))
  }

  /** The 26 capitals go to their small letters, and nothing else changes. */
  lemma LowerIsAscii(s: string, i: nat)
    requires i < |s|
    ensures var (big, small) := ("ABCDEFGHIJKLMNOPQRSTUVWXYZ", "abcdefghijklmnopqrstuvwxyz");
            && (s[i] !in big ==> ToLower(s)[i] == s[i])
            && forall k | 0 <= k < 26 && s[i] == big[k] :: ToLower(s)[i] == small[k]
  {
    var (big, small) := ("ABCDEFGHIJKLMNOPQRSTUVWXYZ", "abcdefghijklmnopqrstuvwxyz");
    assert forall k | 0 <= k < 26 :: big[k] as int == 'A' as int + k && small[k] as int == 'a' as int + k;
    if 'A' <= s[i] <= 'Z' { assert s[i] == big[s[i] as int - 'A' as int]; }
  }

  const DIGITS := "0123456789"

  /** Decimal text of a number, as `%d` prints it. */
  function Decimal(n: nat): (s: string)
    ensures |s| > 0
    ensures forall i | 0 <= i < |s| :: s[i] in DIGITS
  {
    if n < 10 then [DIGITS[n]] else Decimal(n / 10) + [DIGITS[n % 10]]
  }

  function DigitValue(c: char): nat {
    if '0' <= c <= '9' then c as nat - '0' as nat else 0
  }

  function ParseDecimal(s: string): nat {
    if s == [] then 0 else 10 * ParseDecimal(s[..|s| - 1]) + DigitValue(s[|s| - 1])
  }

  lemma {:induction false} DecimalParses(n: nat)
    ensures ParseDecimal(Decimal(n)) == n
  {
    var s := Decimal(n);
    if n >= 10 {
      DecimalParses(n / 10);
      assert s[..|s| - 1] == Decimal(n / 10);
    } else {
      assert s[..|s| - 1] == [];
    }
  }

  /** Two texts that agree, each cut at its first separator, agree on both sides of the cut. */
  lemma CutAtSeparator(a: string, x: string, b: string, y: string, sep: char)
    requires sep !in a && sep !in b
    requires a + [sep] + x == b + [sep] + y
    ensures a == b && x == y
  {
    var s, t := a + [sep] + x, b + [sep] + y;
    assert s[|a|] == sep && t[|b|] == sep;
    assert forall i | 0 <= i < |a| :: s[i] == a[i] && a[i] in a;
    assert forall i | 0 <= i < |b| :: t[i] == b[i] && b[i] in b;
    assert |a| == |b|;
    assert a == s[..|a|] == t[..|b|] == b;
    assert x == s[|a| + 1..] == t[|b| + 1..] == y;
  }

  const MAX_INT64: int := 0x7FFF_FFFF_FFFF_FFFF

  predicate Digits(s: string) {
    s != "" && forall i | 0 <= i < |s| :: '0' <= s[i] <= '9'
  }

  /** The value of `strconv.ParseInt(s, 10, 64)`, its error ignored: 0 on bad syntax, the nearest
      bound out of range. */
  function ParseInt64(s: string): int {
    var signed := s != "" && (s[0] == '+' || s[0] == '-');
    var digits := if signed then s[1..] else s;
    var n: int := ParseDecimal(digits);
    if !Digits(digits) then 0
    else if signed && s[0] == '-' then
      if n > MAX_INT64 then -MAX_INT64 - 1 else -n
    else if n > MAX_INT64 then MAX_INT64
    else n
  }

  /** `strconv.FormatInt(n, 10)`. */
  function FormatInt(n: int): (s: string)
    ensures s != ""
  {
    if n < 0 then "-" + Decimal(-n) else Decimal(n)
  }
}
