/** String values in .config files: written with \ and " escaped, read back by two
    replacements in sequence (docs/bk7258/kconfiglib.py). */
module ConfigString {
  datatype Loaded = Value(val: string) | Malformed

  /** Python's s.replace(pat, rep): left to right, without overlap. */
  function Replace(s: string, pat: string, rep: string): string
    requires pat != []
  {
    if |s| < |pat| then s
    else if s[..|pat|] == pat then rep + Replace(s[|pat|..], pat, rep)
    else [s[0]] + Replace(s[1..], pat, rep)
  }

  const B: char := '\\'
  const Q: char := '\"'

  function Escape(v: string): string {
    Replace(Replace(v, [B], [B, B]), [Q], [B, Q])
  }

  function Unescape(s: string): string {
    Replace(Replace(s, [B, Q], [Q]), [B, B], [B])
  }

  /** What write_config puts after the "=". */
  function Write(v: string): string {
    [Q] + Escape(v) + [Q]
  }

  /** What load_config makes of what follows the "=". */
  function Load(s: string): Loaded {
    if s != [] && s[0] == Q then
      if |s| < 2 || s[|s| - 1] != Q then Malformed else Value(Unescape(s[1..|s| - 1]))
    else Value(s)
  }

  // ---- The same, character by character ----

  function DoubleChar(c: char): string {
    if c == B then [B, B] else [c]
  }

  function EscapeChar(c: char): string {
    if c == B then [B, B] else if c == Q then [B, Q] else [c]
  }

  function Double(v: string): string {
    if v == [] then [] else DoubleChar(v[0]) + Double(v[1..])
  }

  function EscapeChars(v: string): string {
    if v == [] then [] else EscapeChar(v[0]) + EscapeChars(v[1..])
  }

  lemma PassChar(c: char, s: string, pat: string, rep: string)
    requires pat != [] && (pat[0] != c || !(pat <= [c] + s))
    ensures Replace([c] + s, pat, rep) == [c] + Replace(s, pat, rep)
  {
    assert ([c] + s)[1..] == s;
    if |[c] + s| < |pat| {
      assert Replace(s, pat, rep) == s;
    }
  }

  lemma TakePattern(s: string, pat: string, rep: string)
    requires pat != []
    ensures Replace(pat + s, pat, rep) == rep + Replace(s, pat, rep)
  {
    assert (pat + s)[..|pat|] == pat && (pat + s)[|pat|..] == s;
  }

  /** A backslash pair passes through a replacement that does not start in it. */
  lemma PassPair(s: string, pat: string, rep: string)
    requires pat == [Q] || (pat == [B, Q] && (s == [] || s[0] != Q))
    ensures Replace([B, B] + s, pat, rep) == [B, B] + Replace(s, pat, rep)
  {
    assert [B, B] + s == [B] + ([B] + s);
    assert pat == [B, Q] ==> !(pat <= [B] + ([B] + s)) by { assert ([B] + ([B] + s))[1] == B; }
    assert pat == [B, Q] ==> !(pat <= [B] + s) by { assert s != [] ==> ([B] + s)[1] == s[0]; }
    hide Replace;
    PassChar(B, [B] + s, pat, rep);
    PassChar(B, s, pat, rep);
    assert [B] + ([B] + Replace(s, pat, rep)) == [B, B] + Replace(s, pat, rep);
  }

  lemma ReplaceEmpty(pat: string, rep: string)
    requires pat != []
    ensures Replace([], pat, rep) == []
  {
  }

  lemma {:induction false} DoubleIsReplace(v: string)
    ensures Replace(v, [B], [B, B]) == Double(v)
  {
    hide Replace;
    ReplaceEmpty([B], [B, B]);
    if v != [] {
      DoubleIsReplace(v[1..]);
      assert v == [v[0]] + v[1..];
      if v[0] == B {
        TakePattern(v[1..], [B], [B, B]);
      } else {
        PassChar(v[0], v[1..], [B], [B, B]);
      }
    }
  }

  lemma {:induction false} QuoteReplace(v: string)
    ensures Replace(Double(v), [Q], [B, Q]) == EscapeChars(v)
  {
    hide Replace;
    ReplaceEmpty([Q], [B, Q]);
    if v != [] {
      QuoteReplace(v[1..]);
      QuoteChar(v[0], Double(v[1..]));
    }
  }

  lemma QuoteChar(c: char, d: string)
    ensures Replace(DoubleChar(c) + d, [Q], [B, Q]) == EscapeChar(c) + Replace(d, [Q], [B, Q])
  {
    hide Replace;
    if c == B {
      PassPair(d, [Q], [B, Q]);
    } else if c == Q {
      TakePattern(d, [Q], [B, Q]);
    } else {
      PassChar(c, d, [Q], [B, Q]);
    }
  }

  lemma EscapeIsCharwise(v: string)
    ensures Escape(v) == EscapeChars(v)
  {
    DoubleIsReplace(v);
    QuoteReplace(v);
  }

  // ---- The two replacements on reading undo them in turn ----

  lemma NoBareQuote(v: string)
    ensures v != [] ==> EscapeChars(v) != [] && EscapeChars(v)[0] != Q
  {
  }

  /** The first replacement takes back exactly the quote escapes: a doubled backslash
      never meets a bare quote. */
  lemma {:induction false} UnquoteUndoes(v: string)
    ensures Replace(EscapeChars(v), [B, Q], [Q]) == Double(v)
  {
    hide Replace;
    ReplaceEmpty([B, Q], [Q]);
    if v != [] {
      UnquoteUndoes(v[1..]);
      NoBareQuote(v[1..]);
      UnquoteChar(v[0], EscapeChars(v[1..]));
    }
  }

  lemma UnquoteChar(c: char, e: string)
    requires e == [] || e[0] != Q
    ensures Replace(EscapeChar(c) + e, [B, Q], [Q]) == DoubleChar(c) + Replace(e, [B, Q], [Q])
  {
    hide Replace;
    if c == B {
      PassPair(e, [B, Q], [Q]);
    } else if c == Q {
      TakePattern(e, [B, Q], [Q]);
    } else {
      PassChar(c, e, [B, Q], [Q]);
    }
  }

  lemma {:induction false} UndoubleUndoes(v: string)
    ensures Replace(Double(v), [B, B], [B]) == v
  {
    hide Replace;
    ReplaceEmpty([B, B], [B]);
    if v != [] {
      UndoubleUndoes(v[1..]);
      if v[0] == B {
        TakePattern(Double(v[1..]), [B, B], [B]);
      } else {
        PassChar(v[0], Double(v[1..]), [B, B], [B]);
      }
    }
  }

  /** Loading a written string gives the string back, whatever its backslashes and quotes. */
  lemma WriteThenLoad(v: string)
    ensures Load(Write(v)) == Value(v)
  {
    EscapeIsCharwise(v);
    UnquoteUndoes(v);
    UndoubleUndoes(v);
    var w := Write(v);
    assert w[0] == Q && w[|w| - 1] == Q && w[1..|w| - 1] == Escape(v);
  }

  function WithoutBackslashes(s: string): string {
    if s == [] then [] else (if s[0] == B then [] else [s[0]]) + WithoutBackslashes(s[1..])
  }

  /** Every quote stands right after a backslash. */
  predicate QuotesEscaped(s: string) {
    forall i :: 0 <= i < |s| && s[i] == Q ==> i > 0 && s[i - 1] == B
  }

  /** Escaping adds backslashes only: all other characters stay, as many and in their order, and no
      quote is left that could be taken for the closing one. */
  lemma EscapeKeepsOthers(v: string)
    ensures WithoutBackslashes(Escape(v)) == WithoutBackslashes(v) && QuotesEscaped(Escape(v))
  {
    EscapeIsCharwise(v);
    CharwiseKeepsOthers(v);
  }

  lemma {:induction false} CharwiseKeepsOthers(v: string)
    ensures WithoutBackslashes(EscapeChars(v)) == WithoutBackslashes(v) && QuotesEscaped(EscapeChars(v))
  {
    if v != [] {
      var rest := EscapeChars(v[1..]);
      CharwiseKeepsOthers(v[1..]);
      NoBareQuote(v[1..]);
      WithoutJoined(EscapeChar(v[0]), rest);
      assert WithoutBackslashes(v[..1]) == if v[0] == B then [] else [v[0]];
      var s := EscapeChars(v);
      forall i | 0 <= i < |s| && s[i] == Q ensures i > 0 && s[i - 1] == B {
        if i >= |EscapeChar(v[0])| {
          assert s[i] == rest[i - |EscapeChar(v[0])|];
        }
      }
    }
  }

  lemma WithoutJoined(e: string, rest: string)
    requires 0 < |e| <= 2
    ensures WithoutBackslashes(e + rest) ==
      (if e[0] == B then [] else [e[0]]) +
      (if |e| == 1 || e[1] == B then [] else [e[1]]) + WithoutBackslashes(rest)
  {
    assert (e + rest)[1..] == e[1..] + rest;
    if |e| == 1 {
      assert e[1..] + rest == rest;
    } else {
      assert (e[1..] + rest)[1..] == rest;
    }
  }
}
