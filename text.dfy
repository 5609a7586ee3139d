/** String helpers with Python semantics: str.split on one character, str.join,
    endswith('.') stripping and comparison of str values. */
module Text {

  /** s.split(sep) for a one-character separator. */
  function Split(s: string, sep: char): (parts: seq<string>)
    ensures |parts| >= 1
    ensures forall i :: 0 <= i < |parts| ==> sep !in parts[i]
    decreases |s|
  {
    if s == [] then [""]
    else
      var rest := Split(s[1..], sep);
      if s[0] == sep then [""] + rest
      else [[s[0]] + rest[0]] + rest[1..]
  }

  /** sep.join(parts). */
  function Join(parts: seq<string>, sep: char): string
    decreases |parts|
  {
    if |parts| == 0 then ""
    else if |parts| == 1 then parts[0]
    else parts[0] + [sep] + Join(parts[1..], sep)
  }

  /** Joining the pieces of a split with the same separator gives back the string. */
  lemma {:induction false} JoinSplit(s: string, sep: char)
    ensures Join(Split(s, sep), sep) == s
    decreases |s|
  {
    if s != [] {
      var rest := Split(s[1..], sep);
      JoinSplit(s[1..], sep);
      if s[0] == sep {
        assert Split(s, sep) == [""] + rest;
        assert ([""] + rest)[1..] == rest;
      } else {
        var parts := [[s[0]] + rest[0]] + rest[1..];
        assert Split(s, sep) == parts;
        if |rest| == 1 {
          assert Join(parts, sep) == [s[0]] + rest[0];
        } else {
          assert parts[1..] == rest[1..];
          assert Join(rest, sep) == rest[0] + [sep] + Join(rest[1..], sep);
        }
      }
    }
  }

  /** A string without the separator splits into itself alone. */
  lemma {:induction false} SplitWithoutSep(s: string, sep: char)
    requires sep !in s
    ensures Split(s, sep) == [s]
    decreases |s|
  {
    if s != [] {
      assert sep !in s[1..];
      SplitWithoutSep(s[1..], sep);
      assert s == [s[0]] + s[1..];
    }
  }

  /** A string holding the separator splits into at least two pieces. */
  lemma {:induction false} SplitWithSep(s: string, sep: char)
    requires sep in s
    ensures |Split(s, sep)| >= 2
    decreases |s|
  {
    if s[0] != sep {
      SplitWithSep(s[1..], sep);
    }
  }

  /** Two pieces without the separator, joined by it, split back into the two. */
  lemma {:induction false} SplitPair(a: string, b: string, sep: char)
    requires sep !in a && sep !in b
    ensures Split(a + [sep] + b, sep) == [a, b]
    decreases |a|
  {
    if a == [] {
      assert a + [sep] + b == [sep] + b;
      SplitWithoutSep(b, sep);
      assert ([sep] + b)[1..] == b;
    } else {
      assert (a + [sep] + b)[1..] == a[1..] + [sep] + b;
      assert sep !in a[1..];
      SplitPair(a[1..], b, sep);
      assert [a[0]] + a[1..] == a;
    }
  }

  /** s.split(sep)[-1]. */
  function LastPiece(s: string, sep: char): string
  {
    var parts := Split(s, sep);
    parts[|parts| - 1]
  }

  /** The last piece of a non-empty string, one character at a time. */
  lemma LastPieceStep(s: string, sep: char)
    requires s != []
    ensures s[0] != sep && |Split(s[1..], sep)| == 1 ==> LastPiece(s, sep) == s
    ensures !(s[0] != sep && |Split(s[1..], sep)| == 1) ==> LastPiece(s, sep) == LastPiece(s[1..], sep)
  {
    var rest := Split(s[1..], sep);
    if s[0] != sep && |rest| == 1 {
      JoinSplit(s[1..], sep);
      assert s == [s[0]] + s[1..];
    }
  }

  /** The last piece is the text after the last separator: a separator-free suffix
      of s, preceded by nothing or by the separator. */
  lemma {:induction false} LastPieceIsTail(s: string, sep: char)
    ensures sep !in LastPiece(s, sep)
    ensures |LastPiece(s, sep)| <= |s| && s[|s| - |LastPiece(s, sep)|..] == LastPiece(s, sep)
    ensures |LastPiece(s, sep)| == |s| || s[|s| - |LastPiece(s, sep)| - 1] == sep
    decreases |s|
  {
    if s != [] {
      LastPieceStep(s, sep);
      var rest := Split(s[1..], sep);
      if !(s[0] != sep && |rest| == 1) {
        LastPieceIsTail(s[1..], sep);
        var last := LastPiece(s, sep);
        assert s[1..][|s| - 1 - |last|..] == s[|s| - |last|..];
        if |last| == |s| - 1 && s[0] != sep {
          assert s[1..] == last;
          SplitWithoutSep(s[1..], sep);
          assert false;
        }
      }
    }
  }

  /** if s.endswith('.'): s = s[:-1] */
  function StripDot(s: string): string
  {
    if |s| > 0 && s[|s| - 1] == '.' then s[..|s| - 1] else s
  }

  /** Stripping removes exactly one trailing dot when there is one and changes nothing otherwise. */
  lemma StripDotSpec(s: string)
    ensures |s| > 0 && s[|s| - 1] == '.' ==> StripDot(s) + "." == s
    ensures !(|s| > 0 && s[|s| - 1] == '.') ==> StripDot(s) == s
  {
  }

  /** Python 2 comparison of two str values: lexicographic on character codes. */
  predicate Less(a: string, b: string)
    decreases |a|
  {
    if a == [] then b != []
    else if b == [] then false
    else if a[0] != b[0] then a[0] < b[0]
    else Less(a[1..], b[1..])
  }

  lemma {:induction false} LessIrreflexive(a: string)
    ensures !Less(a, a)
    decreases |a|
  {
    if a != [] {
      LessIrreflexive(a[1..]);
    }
  }

  lemma {:induction false} LessTransitive(a: string, b: string, c: string)
    requires Less(a, b) && Less(b, c)
    ensures Less(a, c)
    decreases |a|
  {
    if a != [] && b != [] && c != [] && a[0] == b[0] && b[0] == c[0] {
      LessTransitive(a[1..], b[1..], c[1..]);
    }
  }

  lemma {:induction false} LessTotal(a: string, b: string)
    requires a != b
    ensures Less(a, b) || Less(b, a)
    decreases |a|
  {
    if a != [] && b != [] && a[0] == b[0] {
      assert a == [a[0]] + a[1..] && b == [b[0]] + b[1..];
      LessTotal(a[1..], b[1..]);
    }
  }

  lemma {:induction false} LessAsymmetric(a: string, b: string)
    requires Less(a, b)
    ensures !Less(b, a)
  {
    if Less(b, a) {
      LessTransitive(a, b, a);
      LessIrreflexive(a);
    }
  }

  /** Is c an ASCII decimal digit (Python 2 `\d` on a str pattern). */
  predicate IsDigit(c: char)
  {
    '0' <= c <= '9'
  }
}
