/**
 * Escaping of the user's query text before it is handed to the index's query-string parser:
 * every `[`, `]`, `\` and `/` gets one backslash in front of it, everything else is kept
 * as it is and in order.
 */
module QueryEscape {

  /** The characters the query-string syntax gives a special meaning and that get escaped. */
  predicate IsSpecial(c: char) {
    c == '[' || c == ']' || c == '\\' || c == '/'
  }

  /** How many characters of `s` get escaped. */
  function CountSpecial(s: string): nat {
    if s == [] then 0
    else (if IsSpecial(s[0]) then 1 else 0) + CountSpecial(s[1..])
  }

  /** The escaped form of one character. */
  function EscapeChar(c: char): (r: string)
    ensures IsSpecial(c) ==> r == ['\\', c]
    ensures !IsSpecial(c) ==> r == [c]
  {
    if IsSpecial(c) then ['\\', c] else [c]
  }

  /** The text the escaping step produces; it grows by one character per escaped character. */
  function Escape(s: string): (r: string)
    ensures |r| == |s| + CountSpecial(s)
  {
    if s == [] then [] else EscapeChar(s[0]) + Escape(s[1..])
  }

  /** Removes the escapes: a backslash is dropped and the character after it kept verbatim. */
  function Unescape(s: string): string {
    if s == [] then []
    else if |s| >= 2 && s[0] == '\\' then [s[1]] + Unescape(s[2..])
    else [s[0]] + Unescape(s[1..])
  }

  /**
   * A well-escaped text: a sequence of tokens each of which is either a character that needs no
   * escape or a backslash followed by a character that does.
   */
  predicate WellEscaped(s: string) {
    if s == [] then true
    else if !IsSpecial(s[0]) then WellEscaped(s[1..])
    else |s| >= 2 && s[0] == '\\' && IsSpecial(s[1]) && WellEscaped(s[2..])
  }

  /** Escaping distributes over concatenation, so each character is escaped on its own. */
  lemma {:induction false} EscapeAppend(s: string, t: string)
    ensures Escape(s + t) == Escape(s) + Escape(t)
  {
    if s == [] {
      assert s + t == t;
    } else {
      assert (s + t)[0] == s[0];
      assert (s + t)[1..] == s[1..] + t;
      EscapeAppend(s[1..], t);
    }
  }

  /** A text without special characters passes through unchanged. */
  lemma {:induction false} EscapeIdentity(s: string)
    requires forall i :: 0 <= i < |s| ==> !IsSpecial(s[i])
    ensures Escape(s) == s
  {
    if s != [] {
      EscapeIdentity(s[1..]);
    }
  }

  /** Removing the inserted escapes gives back the original text. */
  lemma {:induction false} UnescapeEscape(s: string)
    ensures Unescape(Escape(s)) == s
  {
    if s != [] {
      var t := Escape(s[1..]);
      UnescapeEscape(s[1..]);
      if IsSpecial(s[0]) {
        assert (['\\', s[0]] + t)[2..] == t;
      } else {
        assert ([s[0]] + t)[1..] == t;
      }
    }
  }

  /** Every escaped text is well-escaped: no special character is left without its backslash. */
  lemma {:induction false} EscapeWellEscaped(s: string)
    ensures WellEscaped(Escape(s))
  {
    if s != [] {
      var t := Escape(s[1..]);
      EscapeWellEscaped(s[1..]);
      if IsSpecial(s[0]) {
        assert (['\\', s[0]] + t)[2..] == t;
      } else {
        assert ([s[0]] + t)[1..] == t;
      }
    }
  }

  /** Conversely, every well-escaped text is the escaped form of exactly its unescaped text. */
  lemma {:induction false} EscapeUnescape(r: string)
    requires WellEscaped(r)
    ensures Escape(Unescape(r)) == r
  {
    if r != [] {
      if !IsSpecial(r[0]) {
        EscapeUnescape(r[1..]);
        assert r == [r[0]] + r[1..];
      } else {
        EscapeUnescape(r[2..]);
        assert r == ['\\', r[1]] + r[2..];
      }
    }
  }

  /** Escaping never maps two different texts to the same one. */
  lemma EscapeInjective(s: string, t: string)
    requires Escape(s) == Escape(t)
    ensures s == t
  {
    UnescapeEscape(s);
    UnescapeEscape(t);
  }

  /**
   * Around any position `i` the escaped text consists of the escaped prefix, then the escaped
   * form of `s[i]` (with its backslash exactly when it is special), then the escaped suffix.
   */
  lemma {:induction false} EscapeSplit(s: string, i: nat)
    requires i < |s|
    ensures Escape(s) == Escape(s[..i]) + EscapeChar(s[i]) + Escape(s[i + 1..])
  {
    var rest := [s[i]] + s[i + 1..];
    assert s == s[..i] + rest;
    EscapeAppend(s[..i], rest);
    assert rest[0] == s[i] && rest[1..] == s[i + 1..];
    assert Escape(rest) == EscapeChar(s[i]) + Escape(s[i + 1..]);
  }
}
