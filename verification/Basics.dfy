// Small shared vocabulary: optional values and results, bytes, and the
// string operations the repository takes from Rust's standard library.
module Basics {

  datatype Option<+T> = None | Some(value: T)

  datatype Result<+T, +E> = Ok(value: T) | Err(error: E)

  // A byte, written as the character with its code.
  type Byte = c: char | (c as int) < 256 witness 'a'
  type Bytes = seq<Byte>

  // The number of bytes `c` takes in UTF-8, and a text's length in bytes.
  function CharBytes(c: char): nat {
    if (c as int) < 0x80 then 1
    else if (c as int) < 0x800 then 2
    else if (c as int) < 0x1_0000 then 3
    else 4
  }

  function ByteLen(s: string): (n: nat)
    ensures |s| <= n
  {
    if s == [] then 0 else CharBytes(s[0]) + ByteLen(s[1..])
  }

  // An ASCII text is as many bytes as characters.
  lemma {:induction false} AsciiByteLen(s: string)
    requires forall i :: 0 <= i < |s| ==> (s[i] as int) < 0x80
    ensures ByteLen(s) == |s|
  {
    if s != [] {
      AsciiByteLen(s[1..]);
    }
  }

  predicate StartsWith(s: string, p: string) {
    p <= s
  }

  predicate EndsWith(s: string, p: string) {
    |p| <= |s| && s[|s| - |p|..] == p
  }

  predicate Contains(s: string, p: string) {
    exists i :: 0 <= i <= |s| - |p| && p <= s[i..]
  }

  // The parts of `s` between the separators; one part when there is none.
  function Split(s: string, sep: char): (parts: seq<string>)
    ensures |parts| >= 1
  {
    if s == [] then [""]
    else
      var rest := Split(s[1..], sep);
      if s[0] == sep then [""] + rest else [[s[0]] + rest[0]] + rest[1..]
  }

  // The parts joined by the separator.
  function Join(parts: seq<string>, sep: char): string
    requires |parts| >= 1
  {
    if |parts| == 1 then parts[0] else parts[0] + [sep] + Join(parts[1..], sep)
  }

  // Splitting is the inverse of joining, on parts free of the separator.
  lemma {:induction false} SplitJoin(parts: seq<string>, sep: char)
    requires |parts| >= 1
    requires forall i :: 0 <= i < |parts| ==> sep !in parts[i]
    ensures Split(Join(parts, sep), sep) == parts
    decreases |parts|, |parts[0]|
  {
    var s := Join(parts, sep);
    if parts[0] != "" {
      var shorter := [parts[0][1..]] + parts[1..];
      SplitJoin(shorter, sep);
      assert shorter[1..] == parts[1..];
      assert s == [parts[0][0]] + Join(shorter, sep);
      assert s[1..] == Join(shorter, sep);
      assert [s[0]] + shorter[0] == parts[0];
      assert s[0] != sep by { assert s[0] == parts[0][0]; assert parts[0][0] in parts[0]; }
      assert [parts[0]] + shorter[1..] == parts;
    } else if |parts| > 1 {
      SplitJoin(parts[1..], sep);
      assert s == [sep] + Join(parts[1..], sep);
      assert s[1..] == Join(parts[1..], sep);
      assert [""] + parts[1..] == parts;
    } else {
      assert parts == [""];
    }
  }

  // And joining the inverse of splitting; no part holds the separator.
  lemma {:induction false} JoinSplit(s: string, sep: char)
    ensures Join(Split(s, sep), sep) == s
    ensures forall i :: 0 <= i < |Split(s, sep)| ==> sep !in Split(s, sep)[i]
  {
    if s != [] {
      JoinSplit(s[1..], sep);
      var rest := Split(s[1..], sep);
      if s[0] == sep {
        assert ([""] + rest)[1..] == rest;
      } else {
        var parts := [[s[0]] + rest[0]] + rest[1..];
        assert parts[1..] == rest[1..];
        assert Join(parts, sep) == [s[0]] + Join(rest, sep);
      }
    }
  }

  // Two texts with a separator between them split into the parts of both.
  lemma {:induction false} JoinAppend(a: seq<string>, b: seq<string>, sep: char)
    requires |a| >= 1 && |b| >= 1
    ensures Join(a + b, sep) == Join(a, sep) + [sep] + Join(b, sep)
  {
    if |a| == 1 {
      assert (a + b)[1..] == b;
    } else {
      JoinAppend(a[1..], b, sep);
      assert (a + b)[1..] == a[1..] + b;
      assert a[0] + [sep] + (Join(a[1..], sep) + [sep] + Join(b, sep))
        == (a[0] + [sep] + Join(a[1..], sep)) + [sep] + Join(b, sep);
    }
  }

  lemma SplitAppend(a: string, b: string, sep: char)
    ensures Split(a + [sep] + b, sep) == Split(a, sep) + Split(b, sep)
  {
    JoinSplit(a, sep);
    JoinSplit(b, sep);
    JoinAppend(Split(a, sep), Split(b, sep), sep);
    SplitJoin(Split(a, sep) + Split(b, sep), sep);
  }

  // All of a list of texts, one after the other.
  function Concat<T>(parts: seq<seq<T>>): seq<T> {
    if parts == [] then [] else parts[0] + Concat(parts[1..])
  }

  lemma Assoc<T>(a: seq<T>, b: seq<T>, c: seq<T>)
    ensures a + b + c == a + (b + c)
  {
  }

  lemma {:induction false} ConcatAppend<T>(a: seq<seq<T>>, b: seq<seq<T>>)
    ensures Concat(a + b) == Concat(a) + Concat(b)
  {
    if a == [] {
      assert a + b == b;
    } else {
      ConcatAppend(a[1..], b);
      assert (a + b)[1..] == a[1..] + b;
      Assoc(a[0], Concat(a[1..]), Concat(b));
    }
  }

  lemma ConcatOne<T>(a: seq<seq<T>>, x: seq<T>)
    ensures Concat(a + [x]) == Concat(a) + x
  {
    ConcatAppend(a, [x]);
    assert [x][1..] == [];
    assert Concat([x]) == x;
  }

  // A number in decimal.
  function Digit(d: nat): Byte
    requires d < 10
  {
    ('0' as int + d) as char
  }

  function Decimal(n: nat): (s: Bytes)
    ensures |s| >= 1
  {
    if n < 10 then [Digit(n)] else Decimal(n / 10) + [Digit(n % 10)]
  }

  // Two numbers written alike are the same number.
  lemma {:induction false} DecimalInjective(a: nat, b: nat)
    requires Decimal(a) == Decimal(b)
    ensures a == b
    decreases a
  {
    var s, t := Decimal(a), Decimal(b);
    assert s[|s| - 1] == t[|t| - 1];
    if a >= 10 {
      assert |s| >= 2;
      assert s[..|s| - 1] == Decimal(a / 10) && t[..|t| - 1] == Decimal(b / 10);
      DecimalInjective(a / 10, b / 10);
    }
  }

  // The number some digits write.
  function ReadDecimal(s: string): Option<nat> {
    if s == "" then None
    else
      var n, last := |s| - 1, s[|s| - 1];
      if !('0' <= last <= '9') then None
      else if n == 0 then Some(last as int - '0' as int)
      else match ReadDecimal(s[..n])
        case None => None
        case Some(tens) => Some(10 * tens + (last as int - '0' as int))
  }

  lemma {:induction false} DecimalReadsBack(n: nat)
    ensures ReadDecimal(Decimal(n)) == Some(n)
    decreases n
  {
    var s := Decimal(n);
    if n >= 10 {
      assert s[..|s| - 1] == Decimal(n / 10);
      DecimalReadsBack(n / 10);
    }
  }

  function Pow10(k: nat): nat {
    if k == 0 then 1 else 10 * Pow10(k - 1)
  }

  // A number below 10^k has at most k digits.
  lemma {:induction false} DecimalLength(n: nat, k: nat)
    requires 1 <= k && n < Pow10(k)
    ensures |Decimal(n)| <= k
  {
    if n >= 10 {
      assert Pow10(1) == 10 * Pow10(0) == 10;
      DecimalLength(n / 10, k - 1);
    }
  }

  lemma {:induction false} DecimalDigits(n: nat)
    ensures forall i :: 0 <= i < |Decimal(n)| ==> '0' <= Decimal(n)[i] <= '9'
  {
    if n >= 10 {
      DecimalDigits(n / 10);
    }
  }

  // The value of a hexadecimal digit.
  function HexDigit(c: char): Option<nat> {
    if '0' <= c <= '9' then Some(c as int - '0' as int)
    else if 'a' <= c <= 'f' then Some(c as int - 'a' as int + 10)
    else if 'A' <= c <= 'F' then Some(c as int - 'A' as int + 10)
    else None
  }

  function Min(a: int, b: int): int {
    if a < b then a else b
  }

  // `s` cut at the first separator.
  function SplitOnce(s: string, sep: char): Option<(string, string)> {
    if s == "" then None
    else if s[0] == sep then Some(("", s[1..]))
    else match SplitOnce(s[1..], sep)
      case None => None
      case Some((a, b)) => Some(([s[0]] + a, b))
  }

  lemma {:induction false} SplitOnceAt(a: string, sep: char, b: string)
    requires sep !in a
    ensures SplitOnce(a + [sep] + b, sep) == Some((a, b))
  {
    var s := a + [sep] + b;
    if a == "" {
      assert s[1..] == b;
    } else {
      SplitOnceAt(a[1..], sep, b);
      assert s[1..] == a[1..] + [sep] + b;
      assert [a[0]] + a[1..] == a;
    }
  }

  lemma {:induction false} SplitOnceCuts(s: string, sep: char)
    ensures match SplitOnce(s, sep)
      case None => sep !in s
      case Some((a, b)) => sep !in a && s == a + [sep] + b
  {
    if s != "" && s[0] != sep {
      SplitOnceCuts(s[1..], sep);
    }
  }

  function StripPrefix(s: string, p: string): Option<string> {
    if p <= s then Some(s[|p|..]) else None
  }

  function StripSuffix(s: string, p: string): Option<string> {
    if EndsWith(s, p) then Some(s[..|s| - |p|]) else None
  }

  // Unicode's White_Space, as `char::is_whitespace` has it.
  predicate IsWhitespace(c: char) {
    var n := c as int;
    || 0x9 <= n <= 0xD || n in {0x20, 0x85, 0xA0, 0x1680, 0x2028, 0x2029, 0x202F, 0x205F, 0x3000}
    || 0x2000 <= n <= 0x200A
  }

  // Adjacent separators leave an empty part between them.
  lemma {:induction false} DoubledSeparator(s: string, sep: char, i: nat)
    requires i + 1 < |s| && s[i] == sep && s[i + 1] == sep
    ensures "" in Split(s, sep)[1..]
  {
    var rest := Split(s[1..], sep);
    if i == 0 {
      assert rest[0] == "";
      assert Split(s, sep)[1..] == rest;
    } else {
      DoubledSeparator(s[1..], sep, i - 1);
      var k :| 0 <= k < |rest| - 1 && rest[1..][k] == "";
      assert rest[k + 1] == "";
      if s[0] == sep {
        assert Split(s, sep)[1..][k + 1] == "";
      } else {
        assert Split(s, sep)[1..][k] == "";
      }
    }
  }
}
