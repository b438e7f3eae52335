/** Substring search and replacement on strings, as Python's `in` and
    `str.replace` perform them on `str` values. */
module Text {

  /** `p` occurs in `s` starting at index `i`. */
  predicate OccursAt(s: string, p: string, i: int) {
    0 <= i && i + |p| <= |s| && s[i..i + |p|] == p
  }

  predicate StartsWith(s: string, p: string) {
    |p| <= |s| && s[..|p|] == p
  }

  /** Python's `p in s`: some position of `s` starts with `p`
      (the empty string occurs in every string). */
  function Contains(s: string, p: string): (r: bool)
    ensures StartsWith(s, p) ==> r
    ensures r ==> |p| <= |s|
    decreases |s|
  {
    StartsWith(s, p) || (|s| > 0 && Contains(s[1..], p))
  }

  /** Python's `s.replace(p, q)` for a non-empty `p`: scanning from the left,
      every occurrence of `p` that does not overlap an earlier replaced one
      is replaced by `q`. */
  function ReplaceAll(s: string, p: string, q: string): (r: string)
    requires |p| > 0
    ensures |q| == |p| ==> |r| == |s|
    ensures q == p ==> r == s
    decreases |s|
  {
    if StartsWith(s, p) then
      assert s[..|p|] + s[|p|..] == s;
      q + ReplaceAll(s[|p|..], p, q)
    else if |s| == 0 then s
    else
      assert [s[0]] + s[1..] == s;
      [s[0]] + ReplaceAll(s[1..], p, q)
  }

  /** Python's `s.split(p)` for a non-empty `p`: the pieces between the
      occurrences that `ReplaceAll` replaces. */
  function Split(s: string, p: string): (pieces: seq<string>)
    requires |p| > 0
    ensures |pieces| >= 1
    decreases |s|
  {
    if StartsWith(s, p) then [""] + Split(s[|p|..], p)
    else if |s| == 0 then [""]
    else
      var rest := Split(s[1..], p);
      [[s[0]] + rest[0]] + rest[1..]
  }

  /** Python's `sep.join(pieces)`. */
  function Join(pieces: seq<string>, sep: string): string
    requires |pieces| >= 1
    decreases |pieces|
  {
    if |pieces| == 1 then pieces[0] else pieces[0] + sep + Join(pieces[1..], sep)
  }

  /** `Contains` means what Python's `in` means: an occurrence at some index. */
  lemma {:induction false} ContainsIff(s: string, p: string)
    ensures Contains(s, p) <==> exists i :: OccursAt(s, p, i)
    decreases |s|
  {
    if StartsWith(s, p) {
      assert OccursAt(s, p, 0);
    } else if |s| > 0 {
      ContainsIff(s[1..], p);
      if Contains(s[1..], p) {
        var i :| OccursAt(s[1..], p, i);
        OccursShift(s, p, i);
      } else {
        forall i ensures !OccursAt(s, p, i) {
          if i > 0 {
            OccursShift(s, p, i - 1);
          } else if i == 0 && |p| <= |s| {
            assert s[0..|p|] == s[..|p|];
          }
        }
      }
    }
  }

  /** An occurrence in `s[1..]` is an occurrence in `s` one index later. */
  lemma OccursShift(s: string, p: string, i: int)
    requires |s| > 0 && 0 <= i
    ensures OccursAt(s[1..], p, i) <==> OccursAt(s, p, i + 1)
  {
    if i + 1 + |p| <= |s| {
      assert s[1..][i..i + |p|] == s[i + 1..i + 1 + |p|];
    }
  }

  /** Replacing a string that does not occur changes nothing. */
  lemma {:induction false} ReplaceAbsent(s: string, p: string, q: string)
    requires |p| > 0
    requires !Contains(s, p)
    ensures ReplaceAll(s, p, q) == s
    decreases |s|
  {
    if |s| > 0 {
      ReplaceAbsent(s[1..], p, q);
      assert [s[0]] + s[1..] == s;
    }
  }

  /** A string made of exactly `p` becomes exactly `q`. */
  lemma ReplaceWhole(p: string, q: string)
    requires |p| > 0
    ensures ReplaceAll(p, p, q) == q
  {
  }

  /** The first piece of a join is a prefix of it. */
  lemma JoinStartsWithFirst(pieces: seq<string>, sep: string)
    requires |pieces| >= 1
    ensures |pieces[0]| <= |Join(pieces, sep)|
    ensures Join(pieces, sep)[..|pieces[0]|] == pieces[0]
  {
  }

  /** Prepending text to the first piece prepends it to the join. */
  lemma JoinConsFirst(c: string, pieces: seq<string>, sep: string)
    requires |pieces| >= 1
    ensures Join([c + pieces[0]] + pieces[1..], sep) == c + Join(pieces, sep)
  {
  }

  /** Splitting and joining back with the same separator gives the input
      (the pieces and the separators tile `s`). */
  lemma {:induction false} SplitJoin(s: string, p: string)
    requires |p| > 0
    ensures Join(Split(s, p), p) == s
    decreases |s|
  {
    if StartsWith(s, p) {
      var rest := Split(s[|p|..], p);
      SplitJoin(s[|p|..], p);
      assert ([""] + rest)[1..] == rest;
      assert s[..|p|] + s[|p|..] == s;
    } else if |s| > 0 {
      var rest := Split(s[1..], p);
      SplitJoin(s[1..], p);
      JoinConsFirst([s[0]], rest, p);
      assert [s[0]] + s[1..] == s;
    }
  }

  /** The replacement is the split pieces rejoined with the new text:
      Python's `s.replace(p, q) == q.join(s.split(p))`. */
  lemma {:induction false} ReplaceAllIsSplitJoin(s: string, p: string, q: string)
    requires |p| > 0
    ensures ReplaceAll(s, p, q) == Join(Split(s, p), q)
    decreases |s|
  {
    if StartsWith(s, p) {
      var rest := Split(s[|p|..], p);
      ReplaceAllIsSplitJoin(s[|p|..], p, q);
      assert ([""] + rest)[1..] == rest;
    } else if |s| > 0 {
      var rest := Split(s[1..], p);
      ReplaceAllIsSplitJoin(s[1..], p, q);
      JoinConsFirst([s[0]], rest, q);
    }
  }

  /** No piece of the split contains `p`: no occurrence of `p` lies wholly
      inside a piece. */
  lemma {:induction false} SplitPiecesAvoid(s: string, p: string, k: int)
    requires |p| > 0
    requires 0 <= k < |Split(s, p)|
    ensures !Contains(Split(s, p)[k], p)
    decreases |s|
  {
    if StartsWith(s, p) {
      if k > 0 {
        SplitPiecesAvoid(s[|p|..], p, k - 1);
      } else {
        assert !StartsWith("", p);
      }
    } else if |s| == 0 {
      assert !StartsWith("", p);
    } else {
      var rest := Split(s[1..], p);
      if k > 0 {
        SplitPiecesAvoid(s[1..], p, k);
      } else {
        var piece := [s[0]] + rest[0];
        SplitPiecesAvoid(s[1..], p, 0);
        assert piece[1..] == rest[0];
        assert !StartsWith(piece, p) by {
          SplitJoin(s[1..], p);
          JoinStartsWithFirst(rest, p);
          assert s[..|piece|] == piece;
          assert |p| <= |piece| ==> s[..|p|] == piece[..|p|];
        }
      }
    }
  }

  /** `p` occurs in `s` exactly when the split yields more than one piece. */
  lemma {:induction false} ContainsIffSeveralPieces(s: string, p: string)
    requires |p| > 0
    ensures Contains(s, p) <==> |Split(s, p)| > 1
    decreases |s|
  {
    if !StartsWith(s, p) && |s| > 0 {
      ContainsIffSeveralPieces(s[1..], p);
    }
  }

  /** The split takes the leftmost occurrence each time: no occurrence of
      `p` starts inside a piece that a separator follows (such an occurrence
      would end inside that separator). With `SplitJoin` and
      `SplitPiecesAvoid` this pins the separators down as the left-to-right,
      non-overlapping occurrences, also when `p` overlaps itself. */
  lemma {:induction false} SplitIsLeftmost(s: string, p: string, k: int)
    requires |p| > 0
    requires 0 <= k < |Split(s, p)| - 1
    ensures !Contains(Split(s, p)[k] + p[..|p| - 1], p)
    decreases |s|
  {
    var pieces := Split(s, p);
    if StartsWith(s, p) {
      if k > 0 {
        SplitIsLeftmost(s[|p|..], p, k - 1);
      } else {
        assert pieces[0] + p[..|p| - 1] == p[..|p| - 1];
        ContainsIff(p[..|p| - 1], p);
      }
    } else if |s| > 0 {
      var rest := Split(s[1..], p);
      if k > 0 {
        SplitIsLeftmost(s[1..], p, k);
      } else {
        SplitIsLeftmost(s[1..], p, 0);
        LeftmostFirstPiece(s, p);
      }
    }
  }

  /** The step of `SplitIsLeftmost` for a first piece that grows by the
      first character of `s`. */
  lemma LeftmostFirstPiece(s: string, p: string)
    requires |p| > 0 && |s| > 0 && !StartsWith(s, p)
    requires |Split(s[1..], p)| > 1
    requires !Contains(Split(s[1..], p)[0] + p[..|p| - 1], p)
    ensures !Contains(Split(s, p)[0] + p[..|p| - 1], p)
  {
    SplitFirstPieceCons(s, p);
    FirstPieceThenSeparator(s[1..], p);
    NoOccurrenceBeforeSeparator(s, p, Split(s[1..], p)[0]);
  }

  /** If `s` does not start with `p` and its rest starts with `first + p`,
      an occurrence of `p` that starts inside `[s[0]] + first` would make
      one start inside `first` or at the front of `s`. */
  lemma NoOccurrenceBeforeSeparator(s: string, p: string, first: string)
    requires |p| > 0 && |s| > 0 && !StartsWith(s, p)
    requires StartsWith(s[1..], first + p)
    requires !Contains(first + p[..|p| - 1], p)
    ensures !Contains([s[0]] + first + p[..|p| - 1], p)
  {
    var tail := first + p[..|p| - 1];
    var x := [s[0]] + first + p[..|p| - 1];
    assert x == [s[0]] + tail;
    StartsWithShorter(s[1..], first + p, tail);
    StartsWithCons(s, tail);
    if StartsWith(x, p) {
      StartsWithTrans(s, x, p);
    }
    assert x[1..] == tail;
  }

  /** Without a separator at the front, the first piece of the split of
      `s` is its first character followed by the first piece of the rest. */
  lemma SplitFirstPieceCons(s: string, p: string)
    requires |p| > 0 && |s| > 0 && !StartsWith(s, p)
    ensures Split(s, p)[0] == [s[0]] + Split(s[1..], p)[0]
  {
  }

  /** When a separator follows the first piece, `s` starts with that piece
      and a whole separator. */
  lemma FirstPieceThenSeparator(s: string, p: string)
    requires |p| > 0 && |Split(s, p)| > 1
    ensures StartsWith(s, Split(s, p)[0] + p)
  {
    var pieces := Split(s, p);
    SplitJoin(s, p);
    assert Join(pieces, p) == pieces[0] + p + Join(pieces[1..], p);
  }

  /** A string that starts with `y` starts with every prefix of `y`. */
  lemma StartsWithShorter(s: string, y: string, z: string)
    requires StartsWith(s, y) && |z| <= |y| && z == y[..|z|]
    ensures StartsWith(s, z)
  {
    assert s[..|z|] == s[..|y|][..|z|];
  }

  lemma StartsWithCons(s: string, z: string)
    requires |s| > 0 && StartsWith(s[1..], z)
    ensures StartsWith(s, [s[0]] + z)
  {
    assert s[..1 + |z|] == [s[0]] + s[1..][..|z|];
  }

  lemma StartsWithTrans(s: string, x: string, p: string)
    requires StartsWith(s, x) && StartsWith(x, p)
    ensures StartsWith(s, p)
  {
    assert s[..|p|] == s[..|x|][..|p|];
  }

  /** Every character of a string found in `s` is a character of `s`. */
  lemma ContainsCarriesChars(s: string, p: string, c: char)
    requires Contains(s, p) && c in p
    ensures c in s
  {
    ContainsIff(s, p);
    var i :| OccursAt(s, p, i);
    var j :| 0 <= j < |p| && p[j] == c;
    assert s[i + j] == s[i..i + |p|][j];
  }

  /** What reading in text mode with universal newlines (Python's default
      `newline=None`) makes of a text: every "\r\n" and every '\r' left on
      its own becomes '\n'. */
  function UniversalNewlines(s: string): (r: string)
    ensures '\r' !in r
    ensures '\r' !in s ==> r == s
    ensures |r| <= |s|
    decreases |s|
  {
    if |s| == 0 then s
    else if s[0] == '\r' then
      if |s| > 1 && s[1] == '\n' then "\n" + UniversalNewlines(s[2..])
      else "\n" + UniversalNewlines(s[1..])
    else
      assert '\r' !in s ==> '\r' !in s[1..];
      assert [s[0]] + s[1..] == s;
      [s[0]] + UniversalNewlines(s[1..])
  }

  /** Universal newlines are the two replacements
      `s.replace('\r\n', '\n').replace('\r', '\n')`. */
  lemma {:induction false} UniversalNewlinesIsReplace(s: string)
    ensures UniversalNewlines(s) == ReplaceAll(ReplaceAll(s, "\r\n", "\n"), "\r", "\n")
    decreases |s|
  {
    if StartsWith(s, "\r\n") {
      var t := ReplaceAll(s[2..], "\r\n", "\n");
      UniversalNewlinesIsReplace(s[2..]);
      assert ("\n" + t)[1..] == t;
    } else if |s| > 0 {
      var t := ReplaceAll(s[1..], "\r\n", "\n");
      UniversalNewlinesIsReplace(s[1..]);
      assert ([s[0]] + t)[1..] == t;
    }
  }
}
