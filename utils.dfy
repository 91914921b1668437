/**
 * String helpers of src/lib/utils.ts. Only `truncate` is modelled: the
 * other helpers wrap class-name merging and `Intl` formatting.
 */
module Utils {

  /** The end index `String.prototype.slice(0, n)` uses: a negative `n` counts from the end. */
  function SliceEnd(len: nat, n: int): (e: nat)
    ensures e <= len
    ensures n >= 0 ==> e == if n < len then n else len
    ensures n < 0 ==> e == if len + n > 0 then len + n else 0
  {
    if n >= 0 then (if n < len then n else len)
    else if len + n > 0 then len + n else 0
  }

  /** `truncate(str, length)`: strings longer than `length` are cut and marked with an ellipsis. */
  function Truncate(s: string, n: int): (r: string)
    ensures |r| <= |s| + 1
  {
    if |s| > n then s[..SliceEnd(|s|, n)] + "…" else s
  }

  /** A string no longer than `n` is returned unchanged. */
  lemma TruncateShort(s: string, n: int)
    requires |s| <= n
    ensures Truncate(s, n) == s
  {
  }

  /** With a non-negative length: a long string keeps exactly its first `n` characters, then the ellipsis. */
  lemma TruncateLong(s: string, n: nat)
    requires |s| > n
    ensures |Truncate(s, n)| == n + 1
    ensures Truncate(s, n)[..n] == s[..n] && Truncate(s, n)[n] == '…'
  {
  }

  /** The result always begins with a prefix of the input and is at most one character longer than `n` allows. */
  lemma TruncateBounds(s: string, n: nat)
    ensures |Truncate(s, n)| <= (if |s| <= n then |s| else n + 1)
    ensures exists k | 0 <= k <= |s| :: Truncate(s, n) == s[..k] || Truncate(s, n) == s[..k] + "…"
  {
    if |s| > n {
      assert Truncate(s, n) == s[..n] + "…";
    } else {
      assert Truncate(s, n) == s[..|s|];
    }
  }

  /** Truncating twice with the same non-negative length changes nothing more. */
  lemma {:induction false} TruncateIdempotent(s: string, n: nat)
    ensures Truncate(Truncate(s, n), n) == Truncate(s, n)
  {
    if |s| > n {
      var t := Truncate(s, n);
      assert t == s[..n] + "…";
      assert |t| == n + 1;
      assert t[..n] == s[..n];
    }
  }

  /** A negative length is not idempotent: each call drops characters from the end again. */
  lemma NegativeLengthShrinks()
    ensures Truncate("abcd", -2) == "ab…"
    ensures Truncate(Truncate("abcd", -2), -2) == "a…"
  {
    assert "abcd"[..2] == "ab";
    assert ("ab" + "…")[..1] == "a";
  }
}
