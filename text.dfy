/** String operations the scrapers rely on: JavaScript's `String.prototype.trim`
    and `String.prototype.startsWith`, over strings of Unicode scalar values. */
module Text {

  /** The characters `trim` removes: ECMAScript's WhiteSpace (tab, vertical tab,
      form feed, the byte order mark and every space separator) and its
      LineTerminator (line feed, carriage return, line and paragraph separator). */
  predicate IsTrimmable(c: char)
  {
    c == '\t' || c == '\n' || c == '\U{000B}' || c == '\U{000C}' || c == '\r'
    || c == ' ' || c == '\U{00A0}' || c == '\U{1680}'
    || ('\U{2000}' <= c <= '\U{200A}')
    || c == '\U{2028}' || c == '\U{2029}' || c == '\U{202F}' || c == '\U{205F}'
    || c == '\U{3000}' || c == '\U{FEFF}'
  }

  /** Neither end of `s` is a trimmable character. */
  predicate IsTrimmed(s: string)
  {
    s == [] || (!IsTrimmable(s[0]) && !IsTrimmable(s[|s| - 1]))
  }

  /** JavaScript's `s.trim()`: `s` without its leading and trailing
      trimmable characters. */
  function Trim(s: string): string
  {
    if s == [] then s
    else if IsTrimmable(s[0]) then Trim(s[1..])
    else if IsTrimmable(s[|s| - 1]) then Trim(s[..|s| - 1])
    else s
  }

  /** Trimming keeps a contiguous part `s[i..j]` of its input, with no trimmable
      character at either end, and removes only trimmable characters before
      `i` and from `j` on. */
  lemma {:induction false} TrimSpec(s: string) returns (i: nat, j: nat)
    ensures i <= j <= |s| && Trim(s) == s[i..j]
    ensures forall k :: 0 <= k < i ==> IsTrimmable(s[k])
    ensures forall k :: j <= k < |s| ==> IsTrimmable(s[k])
    ensures IsTrimmed(Trim(s))
  {
    if s == [] {
      i, j := 0, 0;
    } else if IsTrimmable(s[0]) {
      var t := s[1..];
      var i', j' := TrimSpec(t);
      i, j := i' + 1, j' + 1;
      assert t[i'..j'] == s[i..j];
      forall k | 0 <= k < i
        ensures IsTrimmable(s[k])
      {
        if k > 0 {
          assert s[k] == t[k - 1];
        }
      }
      forall k | j <= k < |s|
        ensures IsTrimmable(s[k])
      {
        assert s[k] == t[k - 1];
      }
    } else if IsTrimmable(s[|s| - 1]) {
      var t := s[..|s| - 1];
      i, j := TrimSpec(t);
      assert t[i..j] == s[i..j];
      forall k | j <= k < |s|
        ensures IsTrimmable(s[k])
      {
        if k < |s| - 1 {
          assert s[k] == t[k];
        }
      }
    } else {
      i, j := 0, |s|;
    }
  }

  /** A string with no trimmable character at either end is left as it is,
      so trimming twice is trimming once. */
  lemma TrimIdempotent(s: string)
    ensures IsTrimmed(s) ==> Trim(s) == s
    ensures Trim(Trim(s)) == Trim(s)
  {
    var _, _ := TrimSpec(s);
  }

  /** JavaScript's `s.startsWith(prefix)`. */
  predicate StartsWith(s: string, prefix: string)
  {
    |prefix| <= |s| && s[..|prefix|] == prefix
  }
}
