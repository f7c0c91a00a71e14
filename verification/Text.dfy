/**
  The JavaScript string operations the tool handlers rely on, over Dafny strings
  (sequences of Unicode scalar values): `includes`, `split('\n')`, `join`,
  `trim`, `substring`/`slice` with clamped bounds, number rendering in template
  literals and `parseInt` of a run of decimal digits.
 */
module Text {
  import opened Wrappers

  function Min(a: nat, b: nat): nat { if a <= b then a else b }

  /** `s.slice(0, n)` / `s.substring(0, n)`: the first n elements, or all of s. */
  function Take<T>(s: seq<T>, n: nat): seq<T>
  {
    s[..Min(n, |s|)]
  }

  /** `s.substring(n)`: everything from index n on, or nothing when s is shorter. */
  function Drop(s: string, n: nat): string
  {
    s[Min(n, |s|)..]
  }

  /** `s.slice(-n)`: the last n elements, or all of s. */
  function TakeLast<T>(s: seq<T>, n: nat): seq<T>
  {
    s[|s| - Min(n, |s|)..]
  }

  // ---------------------------------------------------------------- search

  /** p occurs in s starting at index i. */
  predicate OccursAt(s: string, p: string, i: nat)
  {
    i + |p| <= |s| && s[i..i + |p|] == p
  }

  /** `s.indexOf(p, from)`: the first index at or after `from` where p occurs. */
  function IndexFrom(s: string, p: string, from: nat): (r: Option<nat>)
    decreases |s| - from
    ensures r.Some? ==> from <= r.value && OccursAt(s, p, r.value)
    ensures r.Some? ==> forall k :: from <= k < r.value ==> !OccursAt(s, p, k)
    ensures r.None? ==> forall k :: from <= k ==> !OccursAt(s, p, k)
  {
    if from + |p| > |s| then None
    else if s[from..from + |p|] == p then Some(from)
    else IndexFrom(s, p, from + 1)
  }

  /** An occurrence with none before it is the one `indexOf` returns. */
  lemma IndexIsFirst(s: string, p: string, i: nat)
    requires OccursAt(s, p, i) && forall k :: 0 <= k < i ==> !OccursAt(s, p, k)
    ensures IndexFrom(s, p, 0) == Some(i)
  {
  }

  /** `s.startsWith(p)`. */
  predicate StartsWith(s: string, p: string)
  {
    |p| <= |s| && s[..|p|] == p
  }

  /** `s.endsWith(p)`. */
  predicate EndsWith(s: string, p: string)
  {
    |p| <= |s| && s[|s| - |p|..] == p
  }

  /** `s.includes(p)`. */
  predicate Contains(s: string, p: string)
  {
    exists i :: 0 <= i <= |s| - |p| && OccursAt(s, p, i)
  }

  /** `includes` holds exactly when `indexOf` finds an occurrence. */
  lemma ContainsIffFound(s: string, p: string)
    ensures Contains(s, p) <==> IndexFrom(s, p, 0).Some?
  {
  }

  // ---------------------------------------------------------- whitespace

  /** The characters JavaScript's `trim` removes and its regular expressions
      match with `\s`: WhiteSpace and LineTerminator of ECMA-262. */
  predicate IsWhitespace(c: char)
  {
    c == '\t' || c == '\n' || c == '\U{000B}' || c == '\U{000C}' || c == '\r' || c == ' '
    || c == '\U{00A0}' || c == '\U{1680}' || ('\U{2000}' <= c <= '\U{200A}')
    || c == '\U{2028}' || c == '\U{2029}' || c == '\U{202F}' || c == '\U{205F}'
    || c == '\U{3000}' || c == '\U{FEFF}'
  }

  /** s without its leading whitespace. */
  function TrimStart(s: string): (r: string)
    ensures |r| <= |s| && r == s[|s| - |r|..]
    ensures forall k :: 0 <= k < |s| - |r| ==> IsWhitespace(s[k])
    ensures r != [] ==> !IsWhitespace(r[0])
  {
    if s != [] && IsWhitespace(s[0]) then TrimStart(s[1..]) else s
  }

  /** s without its trailing whitespace. */
  function TrimEnd(s: string): (r: string)
    ensures |r| <= |s| && r == s[..|r|]
    ensures forall k :: |r| <= k < |s| ==> IsWhitespace(s[k])
    ensures r != [] ==> !IsWhitespace(r[|r| - 1])
  {
    if s != [] && IsWhitespace(s[|s| - 1]) then TrimEnd(s[..|s| - 1]) else s
  }

  /** `s.trim()`. */
  function Trim(s: string): string
  {
    TrimEnd(TrimStart(s))
  }

  /** A line made of whitespace only. */
  predicate IsBlank(s: string)
  {
    forall k :: 0 <= k < |s| ==> IsWhitespace(s[k])
  }

  /** A line is blank exactly when `line.trim()` is the falsy empty string. */
  lemma BlankIffTrimsToEmpty(s: string)
    ensures IsBlank(s) <==> Trim(s) == []
  {
    var t := TrimStart(s);
    if Trim(s) == [] {
      assert t == [];
    }
  }

  /** Dropping leading whitespace keeps an occurrence of a word that does not
      start with whitespace, shifted by what was dropped. */
  lemma TrimStartKeepsWord(s: string, p: string, i: nat)
    requires OccursAt(s, p, i) && p != [] && !IsWhitespace(p[0])
    ensures i >= |s| - |TrimStart(s)| && OccursAt(TrimStart(s), p, i - (|s| - |TrimStart(s)|))
  {
    var t := TrimStart(s);
    var d := |s| - |t|;
    assert s[i] == p[0];
    assert t[i - d..i - d + |p|] == s[i..i + |p|];
  }

  /** Dropping trailing whitespace keeps an occurrence of a word that does not
      end with whitespace. */
  lemma TrimEndKeepsWord(t: string, p: string, j: nat)
    requires OccursAt(t, p, j) && p != [] && !IsWhitespace(p[|p| - 1])
    ensures OccursAt(TrimEnd(t), p, j)
  {
    var u := TrimEnd(t);
    assert t[j + |p| - 1] == p[|p| - 1];
    assert u[j..j + |p|] == t[j..j + |p|];
  }

  /** Trimming never loses an occurrence of a word that neither starts nor
      ends with whitespace. */
  lemma TrimKeepsWord(s: string, p: string, i: nat)
    requires OccursAt(s, p, i) && p != []
    requires !IsWhitespace(p[0]) && !IsWhitespace(p[|p| - 1])
    ensures Contains(Trim(s), p)
  {
    TrimStartKeepsWord(s, p, i);
    TrimEndKeepsWord(TrimStart(s), p, i - (|s| - |TrimStart(s)|));
  }

  /** A string of at least one character whose first and last characters are
      not whitespace is unchanged by trimming. */
  lemma TrimSolid(s: string)
    requires s != [] && !IsWhitespace(s[0]) && !IsWhitespace(s[|s| - 1])
    ensures Trim(s) == s
  {
  }

  // ---------------------------------------------------- split and join

  /** The lines that survive `filter(line => line.trim())`, in order. */
  function NonBlank(lines: seq<string>): (r: seq<string>)
    ensures |r| <= |lines|
  {
    if lines == [] then []
    else (if IsBlank(lines[0]) then [] else [lines[0]]) + NonBlank(lines[1..])
  }

  /** Every line the filter keeps is non-blank. */
  lemma {:induction false} NonBlankKeepsNonBlank(lines: seq<string>)
    ensures forall k :: 0 <= k < |NonBlank(lines)| ==> !IsBlank(NonBlank(lines)[k])
  {
    if lines != [] {
      NonBlankKeepsNonBlank(lines[1..]);
    }
  }

  /** Filtering two runs of lines is filtering each. */
  lemma {:induction false} NonBlankAppend(a: seq<string>, b: seq<string>)
    ensures NonBlank(a + b) == NonBlank(a) + NonBlank(b)
  {
    if a == [] {
      assert a + b == b;
    } else {
      var head := if IsBlank(a[0]) then [] else [a[0]];
      NonBlankAppend(a[1..], b);
      assert (a + b)[1..] == a[1..] + b;
      calc {
        NonBlank(a + b);
        head + NonBlank(a[1..] + b);
        head + (NonBlank(a[1..]) + NonBlank(b));
        (head + NonBlank(a[1..])) + NonBlank(b);
      }
    }
  }


  /** `s.split('\n')`: the pieces between line feeds; always at least one. */
  function Lines(s: string): (r: seq<string>)
    ensures |r| >= 1
  {
    if s == [] then [""]
    else
      var rest := Lines(s[1..]);
      if s[0] == '\n' then [""] + rest
      else [[s[0]] + rest[0]] + rest[1..]
  }

  /** `parts.join(sep)`. */
  function Join(parts: seq<string>, sep: string): string
  {
    if parts == [] then ""
    else if |parts| == 1 then parts[0]
    else parts[0] + sep + Join(parts[1..], sep)
  }

  /** Joining, after a character is put in front of the first piece, puts the
      character in front of the joined text. */
  lemma JoinExtendsFirst(c: char, parts: seq<string>)
    requires parts != []
    ensures Join([[c] + parts[0]] + parts[1..], "\n") == [c] + Join(parts, "\n")
  {
    var ext := [[c] + parts[0]] + parts[1..];
    if |parts| > 1 {
      assert ext[1..] == parts[1..];
      assert Join(ext, "\n") == ([c] + parts[0]) + "\n" + Join(parts[1..], "\n");
    }
  }

  /** Splitting at line feeds and joining with line feeds gives back the text. */
  lemma {:induction false} JoinLines(s: string)
    ensures Join(Lines(s), "\n") == s
  {
    if s != [] {
      var rest := Lines(s[1..]);
      JoinLines(s[1..]);
      if s[0] == '\n' {
        assert Lines(s) == [""] + rest;
        assert Join(Lines(s), "\n") == "" + "\n" + Join(rest, "\n");
      } else {
        JoinExtendsFirst(s[0], rest);
        assert s == [s[0]] + s[1..];
      }
    }
  }

  /** A piece without line feeds followed by a line feed is one line. */
  lemma {:induction false} LinesCons(a: string, b: string)
    requires '\n' !in a
    ensures Lines(a + "\n" + b) == [a] + Lines(b)
  {
    if a == [] {
      assert a + "\n" + b == "\n" + b;
      assert ("\n" + b)[1..] == b;
    } else {
      assert (a + "\n" + b)[1..] == a[1..] + "\n" + b;
      LinesCons(a[1..], b);
      assert [a[0]] + a[1..] == a;
    }
  }

  /** A string without line feeds is a single line. */
  lemma {:induction false} LinesSingle(a: string)
    requires '\n' !in a
    ensures Lines(a) == [a]
  {
    if a != [] {
      LinesSingle(a[1..]);
      assert [a[0]] + a[1..] == a;
    }
  }

  /** Joining pieces free of line feeds and splitting again gives back the pieces. */
  lemma {:induction false} LinesJoin(parts: seq<string>)
    requires parts != []
    requires forall k :: 0 <= k < |parts| ==> '\n' !in parts[k]
    ensures Lines(Join(parts, "\n")) == parts
  {
    if |parts| == 1 {
      LinesSingle(parts[0]);
    } else {
      LinesJoin(parts[1..]);
      LinesCons(parts[0], Join(parts[1..], "\n"));
      assert [parts[0]] + parts[1..] == parts;
    }
  }

  /** Lines joined by line feeds, a line feed, then more text: the lines come
      back first. */
  lemma {:induction false} LinesJoinThen(parts: seq<string>, rest: string)
    requires parts != []
    requires forall k :: 0 <= k < |parts| ==> '\n' !in parts[k]
    ensures Lines(Join(parts, "\n") + "\n" + rest) == parts + Lines(rest)
  {
    if |parts| == 1 {
      LinesCons(parts[0], rest);
    } else {
      var tail := Join(parts[1..], "\n");
      assert Join(parts, "\n") == parts[0] + "\n" + tail;
      assert Join(parts, "\n") + "\n" + rest == parts[0] + "\n" + (tail + "\n" + rest);
      LinesCons(parts[0], tail + "\n" + rest);
      LinesJoinThen(parts[1..], rest);
      assert [parts[0]] + parts[1..] == parts;
    }
  }

  /** A heading line followed by lines joined by line feeds. */
  lemma HeadingThenLines(heading: string, parts: seq<string>)
    requires '\n' !in heading && parts != []
    requires forall k :: 0 <= k < |parts| ==> '\n' !in parts[k]
    ensures Lines(heading + "\n" + Join(parts, "\n")) == [heading] + parts
  {
    LinesJoin(parts);
    LinesCons(heading, Join(parts, "\n"));
  }

  // ------------------------------------------------------------ numbers

  predicate IsDigit(c: char) { '0' <= c <= '9' }

  function DigitChar(d: nat): (c: char)
    requires d < 10
    ensures IsDigit(c)
  {
    "0123456789"[d]
  }

  function DigitValue(c: char): (d: nat)
    requires IsDigit(c)
    ensures d < 10
  {
    (c as int) - ('0' as int)
  }

  predicate AllDigits(s: string)
  {
    forall k :: 0 <= k < |s| ==> IsDigit(s[k])
  }

  /** How a non-negative integer appears in a template literal: decimal, no
      leading zeros. */
  function NatToString(n: nat): (r: string)
    ensures r != [] && AllDigits(r)
    ensures r[0] == '0' ==> n == 0
  {
    if n < 10 then [DigitChar(n)] else NatToString(n / 10) + [DigitChar(n % 10)]
  }

  /** `parseInt` of a run of decimal digits. */
  function DigitsValue(s: string): nat
    requires AllDigits(s)
  {
    if s == [] then 0 else 10 * DigitsValue(s[..|s| - 1]) + DigitValue(s[|s| - 1])
  }

  lemma DigitRoundTrip(d: nat)
    requires d < 10
    ensures DigitValue(DigitChar(d)) == d
  {
  }

  /** Rendering a number and parsing it back gives the number. */
  lemma {:induction false} ParseRendered(n: nat)
    ensures DigitsValue(NatToString(n)) == n
  {
    DigitRoundTrip(n % 10);
    if n >= 10 {
      ParseRendered(n / 10);
      var s := NatToString(n);
      assert s[..|s| - 1] == NatToString(n / 10);
    }
  }

  /** Distinct numbers render differently. */
  lemma RenderInjective(m: nat, n: nat)
    requires NatToString(m) == NatToString(n)
    ensures m == n
  {
    ParseRendered(m);
    ParseRendered(n);
  }
}
