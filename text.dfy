/**
 * The string operations the application relies on, with JavaScript's
 * meaning: prefix and substring tests, trim (JavaScript's white-space and
 * line-terminator set, also matched by `\s` in a regular expression),
 * ASCII case mapping, and `split` on a single character.
 */
module Text {

  predicate StartsWith(s: string, prefix: string) {
    |prefix| <= |s| && s[..|prefix|] == prefix
  }

  /** `sub` occurs in `s` at index `i`. */
  predicate OccursAt(s: string, sub: string, i: int) {
    0 <= i <= |s| - |sub| && s[i..i + |sub|] == sub
  }

  predicate Contains(s: string, sub: string) {
    exists i | 0 <= i <= |s| - |sub| :: OccursAt(s, sub, i)
  }

  /** JavaScript white space and line terminators. */
  predicate IsSpace(c: char) {
    || c == '\t' || c == '\n' || c == '\U{000B}' || c == '\U{000C}' || c == '\r'
    || c == ' ' || c == '\U{00A0}' || c == '\U{1680}'
    || ('\U{2000}' <= c <= '\U{200A}')
    || c == '\U{2028}' || c == '\U{2029}' || c == '\U{202F}' || c == '\U{205F}'
    || c == '\U{3000}' || c == '\U{FEFF}'
  }

  predicate IsDigit(c: char) {
    '0' <= c <= '9'
  }

  function TrimStart(s: string): (r: string)
    ensures |r| <= |s| && r == s[|s| - |r|..]
    ensures r == [] || !IsSpace(r[0])
    ensures forall i | 0 <= i < |s| - |r| :: IsSpace(s[i])
  {
    if s != [] && IsSpace(s[0]) then TrimStart(s[1..]) else s
  }

  function TrimEnd(s: string): (r: string)
    ensures |r| <= |s| && r == s[..|r|]
    ensures r == [] || !IsSpace(r[|r| - 1])
    ensures forall i | |r| <= i < |s| :: IsSpace(s[i])
  {
    if s != [] && IsSpace(s[|s| - 1]) then TrimEnd(s[..|s| - 1]) else s
  }

  /** `String.prototype.trim`. */
  function Trim(s: string): string {
    TrimEnd(TrimStart(s))
  }

  /** Trim removes only surrounding white space: the result is a slice of the input. */
  lemma TrimIsSlice(s: string)
    ensures exists i, j | 0 <= i <= j <= |s| :: Trim(s) == s[i..j]
    ensures Trim(s) == [] || (!IsSpace(Trim(s)[0]) && !IsSpace(Trim(s)[|Trim(s)| - 1]))
  {
    var a := TrimStart(s);
    var t := TrimEnd(a);
    var i := |s| - |a|;
    assert t == a[..|t|] && a == s[i..];
    assert t == s[i..i + |t|];
    if t != [] {
      assert t[0] == a[0];
    }
  }

  /** The trimmed string is empty exactly when the input is all white space. */
  lemma TrimEmptyIffAllSpace(s: string)
    ensures Trim(s) == [] <==> forall i | 0 <= i < |s| :: IsSpace(s[i])
  {
  }

  /** Trimming twice trims nothing more. */
  lemma TrimIdempotent(s: string)
    ensures Trim(Trim(s)) == Trim(s)
  {
    TrimIsSlice(s);
  }

  /** A string with no white space at either end. */
  predicate Trimmed(s: string) {
    s == [] || (!IsSpace(s[0]) && !IsSpace(s[|s| - 1]))
  }

  /** Trimming yields a trimmed string, and a trimmed string is its own trim. */
  lemma TrimmedIffFixed(s: string)
    ensures Trimmed(Trim(s))
    ensures Trimmed(s) <==> Trim(s) == s
  {
    TrimIsSlice(s);
  }

  function LowerChar(c: char): char {
    if 'A' <= c <= 'Z' then (c as int + 32) as char else c
  }

  function UpperChar(c: char): char {
    if 'a' <= c <= 'z' then (c as int - 32) as char else c
  }

  /** `toLowerCase`, on the ASCII letters. */
  function ToLower(s: string): (r: string)
    ensures |r| == |s|
    ensures forall i | 0 <= i < |s| :: r[i] == LowerChar(s[i])
  {
    seq(|s|, i requires 0 <= i < |s| => LowerChar(s[i]))
  }

  /** `toUpperCase`, on the ASCII letters. */
  function ToUpper(s: string): (r: string)
    ensures |r| == |s|
    ensures forall i | 0 <= i < |s| :: r[i] == UpperChar(s[i])
  {
    seq(|s|, i requires 0 <= i < |s| => UpperChar(s[i]))
  }

  /** `s.split(sep)` for a one-character separator. */
  function Split(s: string, sep: char): (parts: seq<string>)
    ensures |parts| >= 1
  {
    if s == [] then [""]
    else if s[0] == sep then [""] + Split(s[1..], sep)
    else
      var rest := Split(s[1..], sep);
      [[s[0]] + rest[0]] + rest[1..]
  }

  function Join(parts: seq<string>, sep: char): string {
    if |parts| == 0 then ""
    else if |parts| == 1 then parts[0]
    else parts[0] + [sep] + Join(parts[1..], sep)
  }

  /** Splitting loses nothing: joining the parts back gives the input, and no part holds the separator. */
  lemma {:induction false} SplitJoin(s: string, sep: char)
    ensures Join(Split(s, sep), sep) == s
    ensures forall k | 0 <= k < |Split(s, sep)| :: sep !in Split(s, sep)[k]
  {
    if s == [] {
    } else if s[0] == sep {
      SplitJoin(s[1..], sep);
      assert Split(s, sep)[1..] == Split(s[1..], sep);
    } else {
      SplitJoin(s[1..], sep);
      var rest := Split(s[1..], sep);
      var parts := Split(s, sep);
      assert parts[1..] == rest[1..];
      if |rest| == 1 {
        assert parts == [[s[0]] + rest[0]];
      } else {
        assert Join(rest, sep) == rest[0] + [sep] + Join(rest[1..], sep);
        assert Join(parts, sep) == [s[0]] + rest[0] + [sep] + Join(rest[1..], sep);
      }
      assert s == [s[0]] + s[1..];
      forall k | 0 <= k < |parts| ensures sep !in parts[k] {
        if k == 0 {
          assert parts[0] == [s[0]] + rest[0];
        } else {
          assert parts[k] == rest[k];
        }
      }
    }
  }

  /** A first piece without the separator is the first part, and the rest splits on its own. */
  lemma {:induction false} SplitFirst(x: string, y: string, sep: char)
    requires sep !in x
    ensures Split(x + [sep] + y, sep) == [x] + Split(y, sep)
  {
    var s := x + [sep] + y;
    if x == [] {
      assert s == [sep] + y && s[1..] == y;
    } else {
      SplitFirst(x[1..], y, sep);
      assert s[0] == x[0] && s[1..] == x[1..] + [sep] + y;
      assert [x[0]] + x[1..] == x;
    }
  }

  /** A string that does not begin with the separator has a first part beginning with its first character. */
  lemma SplitHead(s: string, sep: char)
    requires s != [] && s[0] != sep
    ensures Split(s, sep)[0] != [] && Split(s, sep)[0][0] == s[0]
  {
  }

  /** A string without the separator is a single part. */
  lemma {:induction false} SplitNoSep(x: string, sep: char)
    requires sep !in x
    ensures Split(x, sep) == [x]
  {
    if x != [] {
      SplitNoSep(x[1..], sep);
      assert [x[0]] + x[1..] == x;
    }
  }
}
