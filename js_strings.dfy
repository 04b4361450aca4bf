/** The two string operations of the send path: `String.prototype.trim` (the
    send gate and the button test) and `s.split(sep)[0]` (the day part of an
    ISO timestamp; the same prefix also drives the transcript line parsers).
    Their properties are lemmas rather than postconditions, so that proofs
    elsewhere see them only where they are asked for. */
module JsStrings {

  /** The WhiteSpace and LineTerminator code points that `trim` removes:
      tab, line feed, vertical tab, form feed, carriage return, space,
      no-break space, the space separators of Unicode category Zs, the line
      and paragraph separators and the byte order mark. */
  predicate IsJsSpace(c: char)
  {
    var n := c as int;
    n == 0x09 || n == 0x0A || n == 0x0B || n == 0x0C || n == 0x0D || n == 0x20
    || n == 0xA0 || n == 0x1680 || (0x2000 <= n <= 0x200A) || n == 0x2028
    || n == 0x2029 || n == 0x202F || n == 0x205F || n == 0x3000 || n == 0xFEFF
  }

  /** Every character of `s` is one that `trim` removes. */
  predicate Blank(s: string)
  {
    forall i :: 0 <= i < |s| ==> IsJsSpace(s[i])
  }

  /** Drops the leading white space. */
  function TrimStart(s: string): string
  {
    if s != [] && IsJsSpace(s[0]) then TrimStart(s[1..]) else s
  }

  /** Drops the trailing white space. */
  function TrimEnd(s: string): string
  {
    if s != [] && IsJsSpace(s[|s| - 1]) then TrimEnd(s[..|s| - 1]) else s
  }

  /** `s.trim()` */
  function Trim(s: string): string
  {
    TrimEnd(TrimStart(s))
  }

  /** `TrimStart` keeps the suffix of `s` that starts at its first character
      other than white space, and drops only white space. */
  lemma {:induction false} TrimStartSpec(s: string)
    ensures var r := TrimStart(s);
      && |r| <= |s| && r == s[|s| - |r|..]
      && Blank(s[..|s| - |r|])
      && (r == [] || !IsJsSpace(r[0]))
  {
    if s != [] && IsJsSpace(s[0]) {
      TrimStartSpec(s[1..]);
      var r := TrimStart(s[1..]);
      assert s[..|s| - |r|] == [s[0]] + s[1..][..|s| - 1 - |r|];
    }
  }

  /** `TrimEnd` keeps the prefix of `s` that ends at its last character other
      than white space, and drops only white space. */
  lemma {:induction false} TrimEndSpec(s: string)
    ensures var r := TrimEnd(s);
      && |r| <= |s| && r == s[..|r|]
      && Blank(s[|r|..])
      && (r == [] || !IsJsSpace(r[|r| - 1]))
  {
    if s != [] && IsJsSpace(s[|s| - 1]) {
      TrimEndSpec(s[..|s| - 1]);
      var r := TrimEnd(s[..|s| - 1]);
      assert s[|r|..] == s[..|s| - 1][|r|..] + [s[|s| - 1]];
    }
  }

  /** Neither end of `s.trim()` is white space. */
  lemma TrimEnds(s: string)
    ensures var r := Trim(s);
      |r| <= |s| && (r == [] || (!IsJsSpace(r[0]) && !IsJsSpace(r[|r| - 1])))
  {
    TrimStartSpec(s);
    TrimEndSpec(TrimStart(s));
  }

  /** `!s.trim()` holds exactly when `s` is made of white space only. */
  lemma TrimEmptyIffBlank(s: string)
    ensures Trim(s) == "" <==> Blank(s)
  {
    var t := TrimStart(s);
    TrimStartSpec(s);
    TrimEndSpec(t);
    if Trim(s) == "" {
      assert Blank(t[0..]);
      assert s == s[..|s| - |t|] + t;
    }
  }

  /** The gate's test in positive form: `s.trim()` is non-empty exactly when
      `s` holds a character that is not white space. */
  lemma TrimNonEmptyIffVisible(s: string)
    ensures Trim(s) != "" <==> exists i :: 0 <= i < |s| && !IsJsSpace(s[i])
  {
    TrimEmptyIffBlank(s);
  }

  /** Trimming twice trims nothing more. */
  lemma TrimIdempotent(s: string)
    ensures Trim(Trim(s)) == Trim(s)
  {
    TrimEnds(s);
  }

  /** `s.split(sep)[0]` */
  function Before(s: string, sep: char): (r: string)
    ensures |r| <= |s|
  {
    if s == [] || s[0] == sep then [] else [s[0]] + Before(s[1..], sep)
  }

  /** `s.split(sep)[0]` is the part of `s` before its first `sep`, or all of
      `s` when it has none. */
  lemma {:induction false} BeforeSpec(s: string, sep: char)
    ensures var r := Before(s, sep);
      && r <= s && sep !in r
      && (|r| == |s| || s[|r|] == sep)
  {
    if s != [] && s[0] != sep {
      BeforeSpec(s[1..], sep);
    }
  }

  /** Whatever comes after the first separator does not matter. */
  lemma {:induction false} BeforeFirstSeparator(head: string, sep: char, tail: string)
    requires sep !in head
    ensures Before(head + [sep] + tail, sep) == head
  {
    if head != [] {
      assert (head + [sep] + tail)[1..] == head[1..] + [sep] + tail;
      BeforeFirstSeparator(head[1..], sep, tail);
    }
  }

  /** A string without the separator is its own first part. */
  lemma {:induction false} BeforeWithoutSeparator(s: string, sep: char)
    requires sep !in s
    ensures Before(s, sep) == s
  {
    if s != [] {
      BeforeWithoutSeparator(s[1..], sep);
    }
  }
}
