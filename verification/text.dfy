/** Python string operations the services rely on: `str.split(sep)`,
    `str.strip()`, zero-padded number formatting and digit parsing. */
module Text {
  import opened PyJson

  /** Characters for which Python's `str.isspace()` holds. */
  predicate IsSpace(c: char) {
    var n := c as int;
    (9 <= n <= 13) || (28 <= n <= 32) || n == 0x85 || n == 0xA0 || n == 0x1680
    || (0x2000 <= n <= 0x200A) || n == 0x2028 || n == 0x2029 || n == 0x202F
    || n == 0x205F || n == 0x3000
  }

  function StripLeft(s: string): string
    decreases |s|
  {
    if |s| > 0 && IsSpace(s[0]) then StripLeft(s[1..]) else s
  }

  function StripRight(s: string): string
    decreases |s|
  {
    if |s| > 0 && IsSpace(s[|s| - 1]) then StripRight(s[..|s| - 1]) else s
  }

  /** No whitespace at either end. */
  predicate IsStripped(s: string) {
    |s| == 0 || (!IsSpace(s[0]) && !IsSpace(s[|s| - 1]))
  }

  lemma {:induction false} StripLeftNoLeadingSpace(s: string)
    ensures var r := StripLeft(s); |r| == 0 || !IsSpace(r[0])
    ensures |StripLeft(s)| <= |s|
    ensures StripLeft(s) == s[|s| - |StripLeft(s)|..]
    ensures forall k :: 0 <= k < |s| - |StripLeft(s)| ==> IsSpace(s[k])
    decreases |s|
  {
    if |s| > 0 && IsSpace(s[0]) {
      StripLeftNoLeadingSpace(s[1..]);
      assert forall k :: 1 <= k < |s| - |StripLeft(s)| ==> s[k] == s[1..][k - 1];
    }
  }

  lemma {:induction false} StripRightKeepsStart(s: string)
    ensures var r := StripRight(s); |r| == 0 || !IsSpace(r[|r| - 1])
    ensures |StripRight(s)| <= |s|
    ensures StripRight(s) == s[..|StripRight(s)|]
    ensures forall k :: |StripRight(s)| <= k < |s| ==> IsSpace(s[k])
    decreases |s|
  {
    if |s| > 0 && IsSpace(s[|s| - 1]) {
      StripRightKeepsStart(s[..|s| - 1]);
      assert forall k :: |StripRight(s)| <= k < |s| - 1 ==> s[k] == s[..|s| - 1][k];
    }
  }

  /** Nothing but whitespace. */
  predicate AllSpace(t: string) {
    forall k :: 0 <= k < |t| ==> IsSpace(t[k])
  }

  /** `s` is `r` with whitespace only around it: `s[..i]` before and the
      rest of `s[i..]` after. */
  predicate Trims(s: string, r: string) {
    exists i :: 0 <= i <= |s| - |r| && AllSpace(s[..i]) && s[i..][..|r|] == r && AllSpace(s[i..][|r|..])
  }

  /** `s.strip()`: `s` with its leading and trailing whitespace removed,
      so that none is left at either end. */
  function Strip(s: string): (r: string)
    ensures IsStripped(r)
    ensures |r| <= |s|
    ensures Trims(s, r)
  {
    StripLeftNoLeadingSpace(s);
    var left := StripLeft(s);
    StripRightKeepsStart(left);
    var r := StripRight(left);
    assert |r| > 0 ==> r[0] == left[0];
    var i := |s| - |left|;
    assert r == s[i..i + |r|];
    assert forall k :: i + |r| <= k < |s| ==> s[k] == left[k - i];
    r
  }

  /** Stripping is determined by its contract: the only text without
      whitespace at its ends that `s` holds with whitespace only around it
      is `Strip(s)`. */
  lemma TrimsUnique(s: string, r: string)
    requires IsStripped(r) && Trims(s, r)
    ensures r == Strip(s)
  {
    TrimsStrippedUnique(s, r, Strip(s));
  }

  lemma TrimsStrippedUnique(s: string, a: string, b: string)
    requires IsStripped(a) && Trims(s, a) && IsStripped(b) && Trims(s, b)
    ensures a == b
  {
    var i :| 0 <= i <= |s| - |a| && AllSpace(s[..i]) && s[i..][..|a|] == a && AllSpace(s[i..][|a|..]);
    var j :| 0 <= j <= |s| - |b| && AllSpace(s[..j]) && s[j..][..|b|] == b && AllSpace(s[j..][|b|..]);
    TrimsAt(s, a, i);
    TrimsAt(s, b, j);
    if |a| > 0 && |b| > 0 {
      assert !IsSpace(s[i]) && !IsSpace(s[j]);
      assert i == j;
      assert !IsSpace(s[i + |a| - 1]) && !IsSpace(s[j + |b| - 1]);
      assert |a| == |b|;
    }
  }

  /** The text trimmed at offset `i`, index by index. */
  lemma TrimsAt(s: string, r: string, i: nat)
    requires i <= |s| - |r| && AllSpace(s[..i]) && s[i..][..|r|] == r && AllSpace(s[i..][|r|..])
    ensures forall k :: 0 <= k < i ==> IsSpace(s[k])
    ensures forall k :: i + |r| <= k < |s| ==> IsSpace(s[k])
    ensures forall k :: 0 <= k < |r| ==> r[k] == s[i + k]
  {
    assert forall k :: 0 <= k < i ==> s[..i][k] == s[k];
    assert forall k :: i + |r| <= k < |s| ==> s[i..][|r|..][k - i - |r|] == s[k];
    assert forall k :: 0 <= k < |r| ==> s[i..][..|r|][k] == s[i + k];
  }

  lemma {:induction false} StripOfStripped(s: string)
    requires IsStripped(s)
    ensures Strip(s) == s
  {
    assert StripLeft(s) == s;
    assert StripRight(s) == s;
  }

  /** Stripping twice is stripping once. */
  lemma StripIdempotent(s: string)
    ensures Strip(Strip(s)) == Strip(s)
  {
    StripOfStripped(Strip(s));
  }

  /** `s.split(sep)` with an explicit separator: always at least one
      piece, and no piece contains the separator. */
  function Split(s: string, sep: char): (parts: seq<string>)
    ensures |parts| >= 1
    ensures forall i :: 0 <= i < |parts| ==> sep !in parts[i]
    decreases |s|
  {
    if |s| == 0 then [""]
    else
      var rest := Split(s[1..], sep);
      if s[0] == sep then [""] + rest
      else [[s[0]] + rest[0]] + rest[1..]
  }

  /** `"".join(parts)`: the pieces one after another. */
  function Concat(parts: seq<string>): string
    decreases |parts|
  {
    if |parts| == 0 then "" else parts[0] + Concat(parts[1..])
  }

  /** `sep.join(parts)`. */
  function Join(parts: seq<string>, sep: char): string
    requires |parts| >= 1
    decreases |parts|
  {
    if |parts| == 1 then parts[0] else parts[0] + [sep] + Join(parts[1..], sep)
  }

  /** Joining the pieces of a split gives back the original text. */
  lemma {:induction false} JoinSplit(s: string, sep: char)
    ensures Join(Split(s, sep), sep) == s
    decreases |s|
  {
    if |s| > 0 {
      var rest := Split(s[1..], sep);
      JoinSplit(s[1..], sep);
      if s[0] == sep {
        assert ([""] + rest)[1..] == rest;
        assert s == [sep] + s[1..];
      } else {
        var parts := [[s[0]] + rest[0]] + rest[1..];
        if |rest| == 1 {
          assert s == [s[0]] + s[1..];
        } else {
          assert parts[1..] == rest[1..];
          assert Join(rest, sep) == rest[0] + [sep] + Join(rest[1..], sep);
          assert s == [s[0]] + s[1..];
        }
      }
    }
  }

  lemma {:induction false} SplitSeparatorFreePrefix(a: string, t: string, sep: char)
    requires sep !in a
    ensures Split(a + t, sep) == [a + Split(t, sep)[0]] + Split(t, sep)[1..]
    decreases |a|
  {
    if |a| > 0 {
      assert (a + t)[1..] == a[1..] + t;
      SplitSeparatorFreePrefix(a[1..], t, sep);
      assert [a[0]] + (a[1..] + Split(t, sep)[0]) == a + Split(t, sep)[0];
    } else {
      var parts := Split(t, sep);
      assert a + t == t;
      assert a + parts[0] == parts[0];
      assert [parts[0]] + parts[1..] == parts;
    }
  }

  /** Splitting a join of separator-free pieces gives back the pieces. */
  lemma {:induction false} SplitJoin(parts: seq<string>, sep: char)
    requires |parts| >= 1
    requires forall i :: 0 <= i < |parts| ==> sep !in parts[i]
    ensures Split(Join(parts, sep), sep) == parts
    decreases |parts|
  {
    if |parts| == 1 {
      SplitSeparatorFreePrefix(parts[0], "", sep);
      assert parts[0] + "" == parts[0];
    } else {
      var tail := Join(parts[1..], sep);
      SplitJoin(parts[1..], sep);
      assert Split([sep] + tail, sep) == [""] + parts[1..];
      assert parts[0] + [sep] + tail == parts[0] + ([sep] + tail);
      SplitSeparatorFreePrefix(parts[0], [sep] + tail, sep);
      assert parts[0] + "" == parts[0];
      assert ([""] + parts[1..])[1..] == parts[1..];
    }
  }

  /** Two-digit zero-padded rendering, as `strftime("%d")` / `"%m"`. */
  function Pad2(n: nat): (s: string)
    requires n < 100
    ensures |s| == 2
  {
    [DigitChar(n / 10), DigitChar(n % 10)]
  }

  /** Four-digit zero-padded rendering, as `strftime("%Y")`. */
  function Pad4(n: nat): (s: string)
    requires n < 10000
    ensures |s| == 4
  {
    Pad2(n / 100) + Pad2(n % 100)
  }

  predicate IsDigit(c: char) {
    '0' <= c <= '9'
  }

  predicate AllDigits(s: string) {
    forall i :: 0 <= i < |s| ==> IsDigit(s[i])
  }

  /** The value of a string of decimal digits, most significant first. */
  function DigitsValue(s: string): nat
    requires AllDigits(s)
    decreases |s|
  {
    if |s| == 0 then 0
    else DigitsValue(s[..|s| - 1]) * 10 + (s[|s| - 1] as int - '0' as int)
  }

  lemma Pad2RoundTrip(n: nat)
    requires n < 100
    ensures AllDigits(Pad2(n)) && DigitsValue(Pad2(n)) == n
  {
    var s := Pad2(n);
    assert s[..1] == [DigitChar(n / 10)];
    assert s[..1][..0] == [];
    assert DigitsValue(s[..1]) == n / 10;
    assert DigitsValue(s) == (n / 10) * 10 + n % 10;
  }

  lemma Pad4RoundTrip(n: nat)
    requires n < 10000
    ensures AllDigits(Pad4(n)) && DigitsValue(Pad4(n)) == n
  {
    var hi := Pad2(n / 100);
    var lo := Pad2(n % 100);
    var s := hi + lo;
    Pad2RoundTrip(n / 100);
    Pad2RoundTrip(n % 100);
    assert s[..3] == hi + [lo[0]];
    assert s[..3][..2] == hi;
    assert lo[..1] == [lo[0]];
    assert lo[..1][..0] == [];
  }

  /** `NatToString` writes digits that read back as the number. */
  lemma {:induction false} NatToStringRoundTrip(n: nat)
    ensures AllDigits(NatToString(n)) && DigitsValue(NatToString(n)) == n
    decreases n
  {
    var s := NatToString(n);
    if n < 10 {
      assert s[..0] == [];
    } else {
      NatToStringRoundTrip(n / 10);
      var p := NatToString(n / 10);
      assert s == p + [DigitChar(n % 10)];
      assert s[..|s| - 1] == p;
    }
  }

  function ToLowerAscii(c: char): char {
    if 'A' <= c <= 'Z' then (c as int + 32) as char else c
  }

  function LowerAscii(s: string): (r: string)
    ensures |r| == |s|
  {
    seq(|s|, i requires 0 <= i < |s| => ToLowerAscii(s[i]))
  }
}
