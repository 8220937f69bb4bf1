/**
 * String operations the form builder relies on, written out as the
 * JavaScript built-ins behave: `String.prototype.trim`, `split(",")`
 * and the decimal `toString()` of a clock reading.
 */
module Text {

  /** The code points `trim` removes: ECMAScript WhiteSpace and LineTerminator. */
  predicate IsTrimmable(c: char) {
    || c == '\t' || c == '\n' || c == '\U{000B}' || c == '\U{000C}' || c == '\r'
    || c == ' ' || c == '\U{00A0}' || c == '\U{1680}'
    || ('\U{2000}' <= c <= '\U{200A}')
    || c == '\U{2028}' || c == '\U{2029}' || c == '\U{202F}' || c == '\U{205F}'
    || c == '\U{3000}' || c == '\U{FEFF}'
  }

  /** A string whose `trim()` is falsy: nothing but trimmable code points. */
  predicate IsBlank(s: string) {
    forall i | 0 <= i < |s| :: IsTrimmable(s[i])
  }

  /** Drops leading trimmable code points; the result is a suffix of `s`. */
  function TrimStart(s: string): (r: string)
    ensures |r| <= |s|
    ensures forall i | 0 <= i < |s| - |r| :: IsTrimmable(s[i])
    ensures r != [] ==> !IsTrimmable(r[0])
  {
    if s != [] && IsTrimmable(s[0]) then TrimStart(s[1..]) else s
  }

  /** Drops trailing trimmable code points; the result is a prefix of `s`. */
  function TrimEnd(s: string): (r: string)
    ensures |r| <= |s|
    ensures forall i | |r| <= i < |s| :: IsTrimmable(s[i])
    ensures r != [] ==> !IsTrimmable(r[|r| - 1])
  {
    if s != [] && IsTrimmable(s[|s| - 1]) then TrimEnd(s[..|s| - 1]) else s
  }

  /** `TrimStart(s)` is the suffix of `s` after the leading trimmable code points. */
  lemma {:induction false} TrimStartIsSuffix(s: string)
    ensures TrimStart(s) == s[|s| - |TrimStart(s)|..]
  {
    if s != [] && IsTrimmable(s[0]) {
      TrimStartIsSuffix(s[1..]);
    }
  }

  /** `TrimEnd(s)` is the prefix of `s` before the trailing trimmable code points. */
  lemma {:induction false} TrimEndIsPrefix(s: string)
    ensures TrimEnd(s) == s[..|TrimEnd(s)|]
  {
    if s != [] && IsTrimmable(s[|s| - 1]) {
      TrimEndIsPrefix(s[..|s| - 1]);
    }
  }

  /** How many code points `trim` removes at the front of `s`. */
  function TrimOffset(s: string): nat
    ensures TrimOffset(s) <= |s|
  {
    |s| - |TrimStart(s)|
  }

  /** `s.trim()`: `s` without its leading and trailing trimmable code points. */
  function Trim(s: string): (r: string)
    ensures |r| <= |s|
  {
    TrimEnd(TrimStart(s))
  }

  /** `Trim(s)` is the slice of `s` that starts at `TrimOffset(s)`. */
  lemma TrimIsSlice(s: string)
    ensures TrimOffset(s) + |Trim(s)| <= |s|
    ensures Trim(s) == s[TrimOffset(s)..TrimOffset(s) + |Trim(s)|]
  {
    var t := TrimStart(s);
    TrimStartIsSuffix(s);
    TrimEndIsPrefix(t);
    assert t == s[TrimOffset(s)..];
  }

  /** Only trimmable code points are cut away, on either side. */
  lemma TrimCutsOnlyTrimmable(s: string)
    ensures forall i | 0 <= i < TrimOffset(s) :: IsTrimmable(s[i])
    ensures forall i | TrimOffset(s) + |Trim(s)| <= i < |s| :: IsTrimmable(s[i])
  {
    var t, k := TrimStart(s), TrimOffset(s);
    var r := TrimEnd(t);
    TrimStartIsSuffix(s);
    TrimEndIsPrefix(t);
    assert t == s[k..];
    forall i | k + |r| <= i < |s|
      ensures IsTrimmable(s[i])
    {
      assert s[i] == t[i - k];
    }
  }

  /** The trimmed string neither starts nor ends with a trimmable code point. */
  lemma TrimEndsUntrimmable(s: string)
    ensures Trim(s) != [] ==> !IsTrimmable(Trim(s)[0]) && !IsTrimmable(Trim(s)[|Trim(s)| - 1])
  {
    var t := TrimStart(s);
    var r := TrimEnd(t);
    TrimEndIsPrefix(t);
    if r != [] {
      assert r[0] == t[0];
    }
  }

  /** `s.trim()` is falsy exactly when `s` is blank. */
  lemma TrimEmptyIffBlank(s: string)
    ensures Trim(s) == [] <==> IsBlank(s)
  {
    TrimIsSlice(s);
    TrimCutsOnlyTrimmable(s);
    TrimEndsUntrimmable(s);
    var k := TrimOffset(s);
    if Trim(s) != [] {
      assert Trim(s)[0] == s[k];
    }
  }

  /**
   * `Trim(s)` is the slice of `s` that starts at `TrimOffset(s)`, with only
   * trimmable code points cut away on either side, and it neither starts
   * nor ends with one. It is empty exactly when `s` is blank.
   */
  lemma TrimSpec(s: string)
    ensures TrimOffset(s) + |Trim(s)| <= |s|
    ensures Trim(s) == s[TrimOffset(s)..TrimOffset(s) + |Trim(s)|]
    ensures forall i | 0 <= i < TrimOffset(s) :: IsTrimmable(s[i])
    ensures forall i | TrimOffset(s) + |Trim(s)| <= i < |s| :: IsTrimmable(s[i])
    ensures Trim(s) != [] ==> !IsTrimmable(Trim(s)[0]) && !IsTrimmable(Trim(s)[|Trim(s)| - 1])
    ensures Trim(s) == [] <==> IsBlank(s)
  {
    TrimIsSlice(s);
    TrimCutsOnlyTrimmable(s);
    TrimEndsUntrimmable(s);
    TrimEmptyIffBlank(s);
  }

  /** Every code point of `s.trim()` occurs in `s`. */
  lemma TrimKeepsOnly(s: string, c: char)
    ensures c in Trim(s) ==> c in s
  {
    TrimSpec(s);
    var r, k := Trim(s), TrimOffset(s);
    if c in r {
      var j :| 0 <= j < |r| && r[j] == c;
      assert s[k + j] == c;
    }
  }

  /** Trimming is idempotent. */
  lemma TrimIdempotent(s: string)
    ensures Trim(Trim(s)) == Trim(s)
  {
    TrimSpec(s);
    var r := Trim(s);
    if r != [] {
      assert TrimStart(r) == r;
      assert TrimEnd(r) == r;
    }
  }

  /** `s.split(sep)`: the pieces between separators, at least one. */
  function Split(s: string, sep: char): (pieces: seq<string>)
    ensures pieces != []
    decreases |s|
  {
    if s == [] then [""]
    else
      var rest := Split(s[1..], sep);
      if s[0] == sep then [""] + rest
      else [[s[0]] + rest[0]] + rest[1..]
  }

  /** A split gives one more piece than there are separators. */
  lemma {:induction false} SplitCount(s: string, sep: char)
    ensures |Split(s, sep)| == multiset(s)[sep] + 1
    decreases |s|
  {
    if s != [] {
      assert s == [s[0]] + s[1..];
      SplitCount(s[1..], sep);
    }
  }

  /** No piece of a split holds the separator. */
  lemma {:induction false} SplitPiecesLackSeparator(s: string, sep: char)
    ensures forall p | p in Split(s, sep) :: sep !in p
    decreases |s|
  {
    if s != [] {
      var rest := Split(s[1..], sep);
      SplitPiecesLackSeparator(s[1..], sep);
      if s[0] != sep {
        assert sep !in [s[0]] + rest[0] by {
          assert sep !in rest[0];
        }
        forall p | p in Split(s, sep)
          ensures sep !in p
        {
          if p != [s[0]] + rest[0] {
            assert p in rest[1..];
          }
        }
      }
    }
  }

  /** `pieces.join(sep)`, the inverse of `Split`. */
  function Join(pieces: seq<string>, sep: char): string
    requires pieces != []
  {
    if |pieces| == 1 then pieces[0] else pieces[0] + [sep] + Join(pieces[1..], sep)
  }

  /** Joining the pieces of a split gives back the string. */
  lemma {:induction false} JoinSplit(s: string, sep: char)
    ensures Join(Split(s, sep), sep) == s
    decreases |s|
  {
    if s != [] {
      var c, rest := s[0], Split(s[1..], sep);
      JoinSplit(s[1..], sep);
      var pieces := Split(s, sep);
      if c == sep {
        assert pieces == [""] + rest;
        assert pieces[1..] == rest;
        assert Join(pieces, sep) == "" + [sep] + Join(rest, sep);
        assert s == [c] + s[1..];
      } else if |rest| == 1 {
        assert pieces == [[c] + rest[0]];
        assert Join(rest, sep) == rest[0];
        assert s == [c] + s[1..];
      } else {
        assert pieces == [[c] + rest[0]] + rest[1..];
        assert pieces[1..] == rest[1..];
        assert Join(pieces, sep) == [c] + rest[0] + [sep] + Join(rest[1..], sep);
        assert Join(rest, sep) == rest[0] + [sep] + Join(rest[1..], sep);
        assert s == [c] + s[1..];
      }
    }
  }

  /** Splitting `p + t` where `p` holds no separator extends the first piece of `t`. */
  lemma {:induction false} SplitPrefix(p: string, t: string, sep: char)
    requires sep !in p
    ensures Split(p + t, sep) == [p + Split(t, sep)[0]] + Split(t, sep)[1..]
    decreases |p|
  {
    if p != [] {
      assert (p + t)[1..] == p[1..] + t;
      assert (p + t)[0] == p[0];
      SplitPrefix(p[1..], t, sep);
      assert [p[0]] + (p[1..] + Split(t, sep)[0]) == p + Split(t, sep)[0];
    } else {
      var pieces := Split(t, sep);
      assert p + t == t;
      assert p + pieces[0] == pieces[0];
      assert [pieces[0]] + pieces[1..] == pieces;
    }
  }

  /** Splitting a join of separator-free pieces gives back the pieces. */
  lemma {:induction false} SplitJoin(pieces: seq<string>, sep: char)
    requires pieces != []
    requires forall p | p in pieces :: sep !in p
    ensures Split(Join(pieces, sep), sep) == pieces
    decreases |pieces|
  {
    if |pieces| == 1 {
      SplitPrefix(pieces[0], "", sep);
      assert pieces[0] + "" == pieces[0];
    } else {
      var tail := Join(pieces[1..], sep);
      SplitJoin(pieces[1..], sep);
      var t := [sep] + tail;
      assert t[1..] == tail;
      assert Split(t, sep) == [""] + pieces[1..];
      SplitPrefix(pieces[0], t, sep);
      assert pieces[0] + [sep] + tail == pieces[0] + t;
      assert pieces[0] + "" == pieces[0];
      assert pieces == [pieces[0]] + pieces[1..];
    }
  }

  /** Joining two lists of pieces puts one separator between their joins. */
  lemma {:induction false} JoinAppend(p: seq<string>, q: seq<string>, sep: char)
    requires p != [] && q != []
    ensures Join(p + q, sep) == Join(p, sep) + [sep] + Join(q, sep)
    decreases |p|
  {
    assert (p + q)[0] == p[0];
    assert (p + q)[1..] == p[1..] + q;
    if |p| > 1 {
      JoinAppend(p[1..], q, sep);
    }
  }

  /** Splitting at a separator splits the two sides apart: their pieces follow each other. */
  lemma SplitAppend(a: string, b: string, sep: char)
    ensures Split(a + [sep] + b, sep) == Split(a, sep) + Split(b, sep)
  {
    var pa, pb := Split(a, sep), Split(b, sep);
    JoinSplit(a, sep);
    JoinSplit(b, sep);
    JoinAppend(pa, pb, sep);
    SplitPiecesLackSeparator(a, sep);
    SplitPiecesLackSeparator(b, sep);
    forall p | p in pa + pb
      ensures sep !in p
    {
      assert p in pa || p in pb;
    }
    SplitJoin(pa + pb, sep);
  }

  /** A text without the separator is a single piece. */
  lemma SplitNoSeparator(s: string, sep: char)
    requires sep !in s
    ensures Split(s, sep) == [s]
  {
    SplitPrefix(s, "", sep);
    assert s + "" == s;
  }

  /** The character of a decimal digit. */
  function Digit(d: nat): (c: char)
    requires d < 10
    ensures '0' <= c <= '9'
  {
    "0123456789"[d]
  }

  /** `n.toString()` for a non-negative integer: its decimal digits. */
  function Decimal(n: nat): (s: string)
    ensures s != []
    ensures forall i | 0 <= i < |s| :: '0' <= s[i] <= '9'
    ensures n >= 10 ==> |s| >= 2
  {
    if n < 10 then [Digit(n)] else Decimal(n / 10) + [Digit(n % 10)]
  }

  /** Distinct clock readings give distinct decimal strings. */
  lemma {:induction false} DecimalInjective(a: nat, b: nat)
    requires Decimal(a) == Decimal(b)
    ensures a == b
  {
    if a >= 10 && b >= 10 {
      var da, db := Decimal(a), Decimal(b);
      assert da[|da| - 1] == Digit(a % 10) && db[|db| - 1] == Digit(b % 10);
      assert a % 10 == b % 10;
      assert da[..|da| - 1] == Decimal(a / 10);
      assert db[..|db| - 1] == Decimal(b / 10);
      DecimalInjective(a / 10, b / 10);
    }
  }
}
