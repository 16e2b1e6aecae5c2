/**
 * String helpers shared by the Python runtime and the Go operator: prefix
 * tests, splitting and joining on a separator, whitespace trimming, ASCII
 * case mapping, substring search and decimal rendering. Strings are
 * sequences of characters.
 */
module Strs {
  import opened Wrappers

  predicate StartsWith(s: string, p: string) { p <= s }

  predicate EndsWith(s: string, p: string) { |p| <= |s| && s[|s| - |p|..] == p }

  /** The ASCII whitespace Python's `str.isspace` and Go's `unicode.IsSpace` agree on:
      Python's information separators U+001C to U+001F and every non-ASCII space are
      not whitespace here. */
  predicate IsSpace(c: char) { c == ' ' || c == '\t' || c == '\n' || c == '\r' || c == '\U{0B}' || c == '\U{0C}' }

  function LowerChar(c: char): (r: char)
    ensures !('A' <= r <= 'Z')
  { if 'A' <= c <= 'Z' then (c as int + 32) as char else c }

  function UpperChar(c: char): (r: char)
    ensures !('a' <= r <= 'z')
  { if 'a' <= c <= 'z' then (c as int - 32) as char else c }

  /** ASCII lower-casing of every character. */
  function Lower(s: string): (r: string)
    ensures |r| == |s|
    ensures forall i :: 0 <= i < |s| ==> r[i] == LowerChar(s[i])
  { seq(|s|, i requires 0 <= i < |s| => LowerChar(s[i])) }

  /** Strip leading whitespace. */
  function TrimLeft(s: string): (r: string)
    ensures |r| <= |s| && s[|s| - |r|..] == r
    ensures r == [] || !IsSpace(r[0])
    ensures forall i :: 0 <= i < |s| - |r| ==> IsSpace(s[i])
  { if s != [] && IsSpace(s[0]) then TrimLeft(s[1..]) else s }

  /** Strip trailing whitespace. */
  function TrimRight(s: string): (r: string)
    ensures r <= s
    ensures r == [] || !IsSpace(r[|r| - 1])
    ensures forall i :: |r| <= i < |s| ==> IsSpace(s[i])
  { if s != [] && IsSpace(s[|s| - 1]) then TrimRight(s[..|s| - 1]) else s }

  /** Python's `str.strip()` and Go's `strings.TrimSpace`. */
  function Trim(s: string): (r: string)
    ensures r == [] || (!IsSpace(r[0]) && !IsSpace(r[|r| - 1]))
  { TrimRight(TrimLeft(s)) }

  /** The longest prefix of `s` free of whitespace. */
  function TakeWord(s: string): (r: string)
    ensures r <= s
    ensures forall i :: 0 <= i < |r| ==> !IsSpace(r[i])
    ensures |r| == |s| || IsSpace(s[|r|])
  { if s == [] || IsSpace(s[0]) then [] else [s[0]] + TakeWord(s[1..]) }

  /** `s.split()[0]` in Python for a string with some non-space content, "" otherwise. */
  function FirstWord(s: string): (r: string)
  { TakeWord(TrimLeft(s)) }

  /** Go's `strings.Split` / Python's `str.split(sep)` for a one-character separator. */
  function Split(s: string, sep: char): (r: seq<string>)
    ensures |r| >= 1
    ensures forall i :: 0 <= i < |r| ==> sep !in r[i]
    decreases |s|
  {
    if s == [] then [""]
    else
      var rest := Split(s[1..], sep);
      if s[0] == sep then [""] + rest else [[s[0]] + rest[0]] + rest[1..]
  }

  /** Go's `strings.Join` / Python's `sep.join`. */
  function Join(parts: seq<string>, sep: string): (r: string)
    ensures parts == [] ==> r == ""
    ensures |parts| == 1 ==> r == parts[0]
  { if parts == [] then "" else if |parts| == 1 then parts[0] else parts[0] + sep + Join(parts[1..], sep) }

  /** Splitting then joining with the same separator gives back the original string. */
  lemma {:induction false} JoinSplit(s: string, sep: char)
    ensures Join(Split(s, sep), [sep]) == s
    decreases |s|
  {
    if s != [] {
      JoinSplit(s[1..], sep);
      var rest := Split(s[1..], sep);
      if s[0] == sep {
        assert Split(s, sep) == [""] + rest;
        assert s == [s[0]] + s[1..];
      } else {
        assert Split(s, sep) == [[s[0]] + rest[0]] + rest[1..];
        if |rest| == 1 {
          assert s == [s[0]] + rest[0];
        } else {
          assert Join(rest, [sep]) == rest[0] + [sep] + Join(rest[1..], [sep]);
          assert s == [s[0]] + s[1..];
        }
      }
    }
  }

  /** A join starts with its first part. */
  lemma {:induction false} JoinStartsWithFirst(parts: seq<string>, sep: string)
    requires parts != []
    ensures StartsWith(Join(parts, sep), parts[0])
  {
    if |parts| > 1 {
      assert Join(parts, sep) == parts[0] + sep + Join(parts[1..], sep);
    }
  }

  /** A join ends with its last part. */
  lemma {:induction false} JoinEndsWithLast(parts: seq<string>, sep: string)
    requires parts != []
    ensures EndsWith(Join(parts, sep), parts[|parts| - 1])
  {
    if |parts| > 1 {
      JoinEndsWithLast(parts[1..], sep);
      var tail := Join(parts[1..], sep);
      var last := parts[|parts| - 1];
      assert Join(parts, sep) == parts[0] + sep + tail;
      assert (parts[0] + sep + tail)[|parts[0] + sep + tail| - |last|..] == tail[|tail| - |last|..];
    }
  }

  /** `sub` occurs in `s` at index `i`. */
  predicate OccursAt(s: string, sub: string, i: int) { 0 <= i && i + |sub| <= |s| && s[i..i + |sub|] == sub }

  predicate Contains(s: string, sub: string) { exists i | 0 <= i <= |s| :: OccursAt(s, sub, i) }

  /** Go's `strings.Index`: the first index of `sub` in `s`, or -1. */
  function IndexOf(s: string, sub: string): (r: int)
    ensures -1 <= r <= |s|
    ensures r >= 0 ==> OccursAt(s, sub, r) && forall j :: 0 <= j < r ==> !OccursAt(s, sub, j)
    ensures r == -1 ==> forall j :: !OccursAt(s, sub, j)
  { IndexFrom(s, sub, 0) }

  function IndexFrom(s: string, sub: string, k: nat): (r: int)
    requires k <= |s| + 1
    ensures -1 <= r <= |s|
    ensures r >= 0 ==> k <= r && OccursAt(s, sub, r) && forall j :: k <= j < r ==> !OccursAt(s, sub, j)
    ensures r == -1 ==> forall j :: k <= j ==> !OccursAt(s, sub, j)
    decreases |s| + 1 - k
  {
    if k + |sub| > |s| then -1
    else if s[k..k + |sub|] == sub then k
    else IndexFrom(s, sub, k + 1)
  }

  lemma ContainsIffIndex(s: string, sub: string)
    ensures Contains(s, sub) <==> IndexOf(s, sub) >= 0
  {
    if IndexOf(s, sub) >= 0 { assert OccursAt(s, sub, IndexOf(s, sub)); }
  }

  /** An occurrence with none before it is the one `IndexOf` finds. */
  lemma IndexOfFirst(s: string, sub: string, i: int)
    requires OccursAt(s, sub, i)
    requires forall j :: 0 <= j < i ==> !OccursAt(s, sub, j)
    ensures IndexOf(s, sub) == i
  {}

  function DigitChar(d: nat): (c: char)
    requires d < 10
    ensures '0' <= c <= '9'
  { ('0' as int + d) as char }

  /** Decimal rendering of a natural number, without leading zeros. */
  function NatToString(n: nat): (r: string)
    ensures |r| >= 1
    ensures forall i :: 0 <= i < |r| ==> '0' <= r[i] <= '9'
    ensures n >= 10 ==> r[0] != '0'
    decreases n
  { if n < 10 then [DigitChar(n)] else NatToString(n / 10) + [DigitChar(n % 10)] }

  /** Decimal rendering of an integer (Go `%d`, Python `str`). */
  function IntToString(n: int): (r: string)
    ensures |r| >= 1
  { if n < 0 then "-" + NatToString(-n) else NatToString(n) }

  /** The decimal number a digit string denotes. */
  function DigitsValue(s: string): (v: nat)
    requires forall i :: 0 <= i < |s| ==> '0' <= s[i] <= '9'
    decreases |s|
  { if s == [] then 0 else 10 * DigitsValue(s[..|s| - 1]) + (s[|s| - 1] as int - '0' as int) }

  /** NatToString and DigitsValue are inverse. */
  lemma {:induction false} NatToStringValue(n: nat)
    ensures DigitsValue(NatToString(n)) == n
    decreases n
  {
    if n >= 10 {
      NatToStringValue(n / 10);
      var s := NatToString(n);
      assert s[..|s| - 1] == NatToString(n / 10);
    }
  }

  /** NatToString is injective. */
  lemma NatToStringInjective(m: nat, n: nat)
    requires NatToString(m) == NatToString(n)
    ensures m == n
  { NatToStringValue(m); NatToStringValue(n); }

  /** Go's `strconv.Atoi`: an optional sign and at least one decimal digit, within 64 bits. */
  function Atoi(s: string): (r: Option<int>)
    ensures r.Some? ==> -0x8000_0000_0000_0000 <= r.value < 0x8000_0000_0000_0000
  {
    var neg := |s| > 0 && s[0] == '-';
    var digits := if |s| > 0 && (s[0] == '-' || s[0] == '+') then s[1..] else s;
    if digits == [] || !(forall i :: 0 <= i < |digits| ==> '0' <= digits[i] <= '9') then None
    else
      var v := if neg then -(DigitsValue(digits) as int) else DigitsValue(digits);
      if -0x8000_0000_0000_0000 <= v < 0x8000_0000_0000_0000 then Some(v) else None
  }

  /** Decimal renderings of numbers in range parse back to themselves. */
  lemma AtoiNatToString(n: nat)
    requires n < 0x8000_0000_0000_0000
    ensures Atoi(NatToString(n)) == Some(n)
  {
    NatToStringValue(n);
  }

  /** Digits grouped in threes from the right, joined by commas (Go's formatInt, Python's `{:,}`). */
  function GroupThousands(digits: string): (r: string)
    decreases |digits|
  {
    if |digits| <= 3 then digits
    else GroupThousands(digits[..|digits| - 3]) + "," + digits[|digits| - 3..]
  }

  /** Removing every comma from a string. */
  function DropCommas(s: string): (r: string)
    ensures ',' !in r
  { if s == [] then [] else (if s[0] == ',' then [] else [s[0]]) + DropCommas(s[1..]) }

  lemma {:induction false} DropCommasAppend(a: string, b: string)
    ensures DropCommas(a + b) == DropCommas(a) + DropCommas(b)
    decreases |a|
  {
    if a != [] {
      assert (a + b)[1..] == a[1..] + b;
      DropCommasAppend(a[1..], b);
    } else {
      assert a + b == b;
    }
  }

  /** Grouping never loses a digit: removing the commas gives back the digits. */
  lemma {:induction false} GroupThousandsDigits(digits: string)
    requires ',' !in digits
    ensures DropCommas(GroupThousands(digits)) == digits
    decreases |digits|
  {
    if |digits| <= 3 {
      DropCommasNoComma(digits);
    } else {
      var head, tail := digits[..|digits| - 3], digits[|digits| - 3..];
      NoCommaSlices(digits, |digits| - 3);
      GroupThousandsDigits(head);
      DropCommasAroundComma(GroupThousands(head), tail);
      assert head + tail == digits;
    }
  }

  lemma DropCommasAroundComma(g: string, tail: string)
    requires ',' !in tail
    ensures DropCommas(g + "," + tail) == DropCommas(g) + tail
  {
    var withComma := g + ",";
    calc {
      DropCommas(g + "," + tail);
      { assert g + "," + tail == withComma + tail; }
      DropCommas(withComma + tail);
      { DropCommasAppend(withComma, tail); }
      DropCommas(withComma) + DropCommas(tail);
      { DropCommasAppend(g, ","); DropCommaAlone(); }
      DropCommas(g) + DropCommas(tail);
      { DropCommasNoComma(tail); }
      DropCommas(g) + tail;
    }
  }

  lemma DropCommaAlone()
    ensures DropCommas(",") == []
  {
    assert ","[1..] == [];
  }

  lemma NoCommaSlices(s: string, k: nat)
    requires ',' !in s && k <= |s|
    ensures ',' !in s[..k] && ',' !in s[k..]
  {
    assert forall i :: 0 <= i < k ==> s[..k][i] == s[i];
    assert forall i :: 0 <= i < |s| - k ==> s[k..][i] == s[k + i];
  }

  lemma {:induction false} DropCommasNoComma(s: string)
    requires ',' !in s
    ensures DropCommas(s) == s
    decreases |s|
  {
    if s != [] {
      NoCommaSlices(s, 1);
      DropCommasNoComma(s[1..]);
      assert s == [s[0]] + s[1..];
    }
  }

  /** Every comma-free group between commas has three characters, the leading one 1 to 3. */
  lemma {:induction false} GroupThousandsShape(digits: string)
    requires ',' !in digits && |digits| >= 1
    ensures var g := Split(GroupThousands(digits), ',');
      1 <= |g[0]| <= 3 && forall i :: 1 <= i < |g| ==> |g[i]| == 3
    decreases |digits|
  {
    if |digits| > 3 {
      var head, tail := digits[..|digits| - 3], digits[|digits| - 3..];
      NoCommaSlices(digits, |digits| - 3);
      GroupThousandsShape(head);
      SplitAppendSep(GroupThousands(head), tail, ',');
    } else {
      SplitNoSep(digits, ',');
    }
  }

  lemma {:induction false} SplitNoSep(s: string, sep: char)
    requires sep !in s
    ensures Split(s, sep) == [s]
    decreases |s|
  {
    if s != [] {
      assert forall i :: 0 <= i < |s| - 1 ==> s[1..][i] == s[i + 1];
      SplitNoSep(s[1..], sep);
      assert s == [s[0]] + s[1..];
    }
  }

  /** Splitting `a + [sep] + b` where `b` has no separator adds `b` as the last part. */
  lemma {:induction false} SplitAppendSep(a: string, b: string, sep: char)
    requires sep !in b
    ensures Split(a + [sep] + b, sep) == Split(a, sep) + [b]
    decreases |a|
  {
    if a == [] {
      assert a + [sep] + b == [sep] + b;
      assert ([sep] + b)[1..] == b;
      SplitNoSep(b, sep);
    } else {
      assert (a + [sep] + b)[1..] == a[1..] + [sep] + b;
      SplitAppendSep(a[1..], b, sep);
    }
  }

  /** A non-empty run of characters free of whitespace and of the given separators. */
  predicate Word(w: string, seps: set<char>)
  { w != [] && forall i :: 0 <= i < |w| ==> !IsSpace(w[i]) && w[i] !in seps }

  lemma WordTrims(w: string, seps: set<char>)
    requires Word(w, seps)
    ensures Trim(w) == w && TrimLeft(w) == w && FirstWord(w) == w
  {
    TakeWordOfWord(w, [], seps);
    assert w + [] == w;
  }

  /** The first word of `w + rest` is `w` when `rest` starts with whitespace. */
  lemma {:induction false} TakeWordOfWord(w: string, rest: string, seps: set<char>)
    requires w == [] || Word(w, seps)
    requires rest == [] || IsSpace(rest[0])
    ensures TakeWord(w + rest) == w
    decreases |w|
  {
    if w != [] {
      assert (w + rest)[0] == w[0];
      assert (w + rest)[1..] == w[1..] + rest;
      TakeWordOfWord(w[1..], rest, seps);
    } else {
      assert w + rest == rest;
    }
  }

  lemma TrimWordSpace(w: string, seps: set<char>)
    requires Word(w, seps)
    ensures Trim(w + " ") == w
  {
    var t := w + " ";
    assert TrimLeft(t) == t;
    assert t[..|t| - 1] == w;
    assert TrimRight(t) == TrimRight(w);
    WordTrims(w, seps);
  }

  lemma NoSepInWord(w: string, seps: set<char>, c: char)
    requires (w == [] || Word(w, seps)) && c in seps
    ensures c !in w
  {
    assert forall i :: 0 <= i < |w| ==> w[i] != c;
  }
}
