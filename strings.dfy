/** The PHP string built-ins the library relies on: explode, implode, trim,
    the first-colon split of explode with a limit of 2, case-insensitive
    search and integer-to-decimal conversion. */
module Strings {
  import opened Wrappers

  /** explode(c, s): the pieces of s between occurrences of c. */
  function Split(s: string, c: char): (parts: seq<string>)
    ensures |parts| >= 1
    ensures forall i :: 0 <= i < |parts| ==> c !in parts[i]
    ensures c !in s ==> parts == [s]
  {
    if s == [] then [""]
    else
      assert s == [s[0]] + s[1..];
      var rest := Split(s[1..], c);
      if s[0] == c then [""] + rest
      else [[s[0]] + rest[0]] + rest[1..]
  }

  /** implode(sep, parts). */
  function Join(parts: seq<string>, sep: string): string
  {
    if |parts| == 0 then ""
    else if |parts| == 1 then parts[0]
    else parts[0] + sep + Join(parts[1..], sep)
  }

  /** Joining the pieces of explode with the separator gives back the input. */
  lemma {:induction false} JoinSplit(s: string, c: char)
    ensures Join(Split(s, c), [c]) == s
  {
    if s != [] {
      JoinSplit(s[1..], c);
      var rest := Split(s[1..], c);
      if s[0] == c {
        assert Join([""] + rest, [c]) == "" + [c] + Join(rest, [c]);
        assert s == [s[0]] + s[1..];
      } else if |rest| == 1 {
        assert s == [s[0]] + s[1..];
      } else {
        var parts := [[s[0]] + rest[0]] + rest[1..];
        assert parts[1..] == rest[1..];
        assert Join(rest, [c]) == rest[0] + [c] + Join(rest[1..], [c]);
        assert s == [s[0]] + s[1..];
      }
    }
  }

  /** Splitting a string that starts with a separator-free piece a and the
      separator gives a, then the pieces of the remainder. */
  lemma {:induction false} SplitAfterPiece(a: string, c: char, b: string)
    requires c !in a
    ensures Split(a + [c] + b, c) == [a] + Split(b, c)
  {
    if a == [] {
      assert a + [c] + b == [c] + b;
      assert ([c] + b)[1..] == b;
    } else {
      SplitAfterPiece(a[1..], c, b);
      assert (a + [c] + b)[1..] == a[1..] + [c] + b;
      assert [a[0]] + a[1..] == a;
    }
  }

  /** explode on a string made of pieces without the separator, joined by it,
      gives back those pieces. */
  lemma {:induction false} SplitJoin(parts: seq<string>, c: char)
    requires |parts| >= 1
    requires forall i :: 0 <= i < |parts| ==> c !in parts[i]
    ensures Split(Join(parts, [c]), c) == parts
  {
    if |parts| > 1 {
      SplitJoin(parts[1..], c);
      SplitAfterPiece(parts[0], c, Join(parts[1..], [c]));
      assert [parts[0]] + parts[1..] == parts;
    }
  }

  /** The index of the first c in s. */
  function FirstIndex(s: string, c: char): (i: nat)
    requires c in s
    ensures i < |s| && s[i] == c && c !in s[..i]
  {
    if s[0] == c then 0
    else
      assert c in s[1..] by { assert s == [s[0]] + s[1..]; }
      var j := FirstIndex(s[1..], c);
      assert s[..j + 1] == [s[0]] + s[1..][..j];
      j + 1
  }

  /** explode(':', line, 2): the name before the first colon and the rest,
      or None when the line has no colon (the piece at index 1 is unset). */
  function SplitColon(line: string): (r: Option<(string, string)>)
    ensures r.None? <==> ':' !in line
    ensures r.Some? ==> ':' !in r.value.0 && line == r.value.0 + ":" + r.value.1
  {
    if ':' in line then
      var i := FirstIndex(line, ':');
      assert line == line[..i] + ":" + line[i + 1..];
      Some((line[..i], line[i + 1..]))
    else None
  }

  /** The split happens at the first colon only, so the name is exactly what
      precedes it and the value keeps any further colons. */
  lemma SplitColonOf(name: string, value: string)
    requires ':' !in name
    ensures SplitColon(name + ":" + value) == Some((name, value))
  {
    var line := name + ":" + value;
    assert line[|name|] == ':';
    assert line[..|name|] == name;
    var i := FirstIndex(line, ':');
    assert i <= |name| by {
      assert line[..i][|name|..] == line[|name|..i];
    }
    assert i >= |name| by {
      assert line[..|name|][i..] == line[i..|name|];
    }
    var r := SplitColon(line);
    assert r.value.0 == line[..i] == name;
    assert r.value.1 == line[|name| + 1..] == value;
  }

  /** The characters PHP's trim() strips by default. */
  predicate IsTrimChar(c: char)
  {
    c == ' ' || c == '\t' || c == '\n' || c == '\r' || c == '\0' || c == '\U{B}'
  }

  function TrimLeft(s: string): (r: string)
    ensures |r| <= |s| && r == s[|s| - |r|..]
    ensures r == [] || !IsTrimChar(r[0])
    ensures forall k :: 0 <= k < |s| - |r| ==> IsTrimChar(s[k])
  {
    if s != [] && IsTrimChar(s[0]) then TrimLeft(s[1..]) else s
  }

  function TrimRight(s: string): (r: string)
    ensures |r| <= |s| && r == s[..|r|]
    ensures r == [] || !IsTrimChar(r[|r| - 1])
    ensures forall k :: |r| <= k < |s| ==> IsTrimChar(s[k])
  {
    if s != [] && IsTrimChar(s[|s| - 1]) then TrimRight(s[..|s| - 1]) else s
  }

  /** PHP trim(): the input without its leading and trailing whitespace. */
  function Trim(s: string): (r: string)
    ensures r == [] || (!IsTrimChar(r[0]) && !IsTrimChar(r[|r| - 1]))
  {
    TrimRight(TrimLeft(s))
  }

  /** ASCII lower-casing, as the /i flag of a PCRE pattern applies it. */
  function Lower(c: char): char
  {
    if 'A' <= c <= 'Z' then (c as int - 'A' as int + 'a' as int) as char else c
  }

  predicate StartsWithCI(s: string, pat: string)
  {
    |pat| <= |s| && forall k :: 0 <= k < |pat| ==> Lower(s[k]) == Lower(pat[k])
  }

  /** preg_match('/pat/i', s) for a pattern without metacharacters. */
  predicate ContainsCI(s: string, pat: string)
    decreases |s|
  {
    StartsWithCI(s, pat) || (s != [] && ContainsCI(s[1..], pat))
  }

  function Digit(d: nat): char
    requires d < 10
  {
    ['0', '1', '2', '3', '4', '5', '6', '7', '8', '9'][d]
  }

  predicate IsDigit(c: char)
  {
    '0' <= c <= '9'
  }

  predicate AllDigits(s: string)
  {
    forall k :: 0 <= k < |s| ==> IsDigit(s[k])
  }

  /** The decimal rendering of a non-negative integer. */
  function NatToDec(n: nat): (r: string)
    ensures |r| >= 1 && AllDigits(r)
    ensures |r| == 1 <==> n < 10
  {
    if n < 10 then [Digit(n)] else NatToDec(n / 10) + [Digit(n % 10)]
  }

  /** PHP's string conversion of an integer. */
  function IntToDec(i: int): string
  {
    if i < 0 then "-" + NatToDec(-i) else NatToDec(i)
  }

  /** The number a string of decimal digits denotes. */
  function ParseDec(s: string): nat
    requires AllDigits(s)
  {
    if s == [] then 0 else 10 * ParseDec(s[..|s| - 1]) + (s[|s| - 1] as int - '0' as int)
  }

  /** Reading back the decimal rendering of a number gives the number. */
  lemma {:induction false} ParseNatToDec(n: nat)
    ensures ParseDec(NatToDec(n)) == n
  {
    var r := NatToDec(n);
    if n >= 10 {
      ParseNatToDec(n / 10);
      assert r[..|r| - 1] == NatToDec(n / 10);
    }
  }

  /** Distinct numbers have distinct decimal renderings. */
  lemma {:induction false} NatToDecInjective(a: nat, b: nat)
    requires NatToDec(a) == NatToDec(b)
    ensures a == b
  {
    var da, db := NatToDec(a), NatToDec(b);
    if a < 10 {
      assert da[0] == Digit(a) && db[0] == Digit(b);
    } else {
      assert da[..|da| - 1] == NatToDec(a / 10);
      assert db[..|db| - 1] == NatToDec(b / 10);
      NatToDecInjective(a / 10, b / 10);
      assert Digit(a % 10) == da[|da| - 1] == db[|db| - 1] == Digit(b % 10);
    }
  }
}
