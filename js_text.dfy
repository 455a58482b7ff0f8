/**
 * The JavaScript string and array built-ins that the content generator
 * relies on: ASCII case conversion (`toLowerCase`, `toUpperCase`),
 * `split` on a one-character separator and `slice(0, end)`, together with
 * the reference definitions (`Join`, `Contains`) their properties are
 * stated against.
 */
module JsText {

  /** `toLowerCase` on one character, restricted to ASCII letters. */
  function LowerChar(c: char): (d: char)
    ensures !('A' <= d <= 'Z')
    ensures !('A' <= c <= 'Z') ==> d == c
    ensures 'A' <= c <= 'Z' ==> 'a' <= d <= 'z' && d as int - 'a' as int == c as int - 'A' as int
  {
    if 'A' <= c <= 'Z' then (c as int - 'A' as int + 'a' as int) as char else c
  }

  /** `toUpperCase` on one character, restricted to ASCII letters. */
  function UpperChar(c: char): (d: char)
    ensures !('a' <= d <= 'z')
    ensures LowerChar(d) == LowerChar(c)
  {
    if 'a' <= c <= 'z' then (c as int - 'a' as int + 'A' as int) as char else c
  }

  /** `s.toLowerCase()`, character by character. */
  function ToLower(s: string): (r: string)
    ensures |r| == |s|
    ensures forall i :: 0 <= i < |s| ==> r[i] == LowerChar(s[i])
  {
    seq(|s|, i requires 0 <= i < |s| => LowerChar(s[i]))
  }

  /** A string that `toLowerCase` leaves as it is. */
  predicate IsLower(s: string) {
    forall i :: 0 <= i < |s| ==> !('A' <= s[i] <= 'Z')
  }

  /** Lower-casing leaves no upper-case letter, so doing it twice changes nothing. */
  lemma ToLowerIsLower(s: string)
    ensures IsLower(ToLower(s))
    ensures ToLower(ToLower(s)) == ToLower(s)
  {
  }

  /** Lower-casing works on the pieces of a concatenation independently. */
  lemma ToLowerConcat(a: string, b: string)
    ensures ToLower(a + b) == ToLower(a) + ToLower(b)
  {
    assert forall i :: 0 <= i < |a + b| ==> ToLower(a + b)[i] == (ToLower(a) + ToLower(b))[i];
  }

  /**
   * `s.split(sep)` for a one-character separator: the maximal pieces
   * between separators, including the empty pieces that two adjacent
   * separators, or a separator at either end, leave behind. The empty
   * string splits into one empty piece.
   */
  function Split(s: string, sep: char): (pieces: seq<string>)
    ensures |pieces| >= 1
    ensures |pieces| <= |s| + 1
    decreases |s|
  {
    if |s| == 0 then [""]
    else
      var rest := Split(s[1..], sep);
      if s[0] == sep then [""] + rest
      else [[s[0]] + rest[0]] + rest[1..]
  }

  /** No piece of a split holds the separator. */
  lemma {:induction false} SplitPiecesOmitSeparator(s: string, sep: char)
    ensures forall i :: 0 <= i < |Split(s, sep)| ==> sep !in Split(s, sep)[i]
    decreases |s|
  {
    if |s| > 0 {
      SplitPiecesOmitSeparator(s[1..], sep);
      var rest := Split(s[1..], sep);
      if s[0] != sep {
        assert sep !in [s[0]] + rest[0];
      }
    }
  }

  /** `pieces.join(sep)`: the reference that `Split` is the inverse of. */
  function Join(pieces: seq<string>, sep: char): string
  {
    if |pieces| == 0 then ""
    else if |pieces| == 1 then pieces[0]
    else pieces[0] + [sep] + Join(pieces[1..], sep)
  }

  /** Joining the pieces of a split gives back the string that was split. */
  lemma {:induction false} JoinSplit(s: string, sep: char)
    ensures Join(Split(s, sep), sep) == s
    decreases |s|
  {
    if |s| > 0 {
      var rest := Split(s[1..], sep);
      JoinSplit(s[1..], sep);
      if s[0] == sep {
        assert Split(s, sep) == [""] + rest;
        assert s == [sep] + s[1..];
      } else {
        var first := [s[0]] + rest[0];
        assert Split(s, sep) == [first] + rest[1..];
        if |rest| == 1 {
          assert s == [s[0]] + s[1..];
        } else {
          assert ([first] + rest[1..])[1..] == rest[1..];
          assert Join(rest, sep) == rest[0] + [sep] + Join(rest[1..], sep);
          assert s == [s[0]] + s[1..];
        }
      }
    }
  }

  /** A string without the separator is a single piece. */
  lemma {:induction false} SplitWithoutSeparator(w: string, sep: char)
    requires sep !in w
    ensures Split(w, sep) == [w]
    decreases |w|
  {
    if |w| > 0 {
      SplitWithoutSeparator(w[1..], sep);
      assert [w[0]] + w[1..] == w;
    }
  }

  /** The inductive step of `SplitAround` when `a` starts with the separator. */
  lemma SplitAroundStepAtSeparator(a: string, b: string, sep: char)
    requires |a| > 0 && a[0] == sep
    requires Split(a[1..] + [sep] + b, sep) == Split(a[1..], sep) + Split(b, sep)
    ensures Split(a + [sep] + b, sep) == Split(a, sep) + Split(b, sep)
  {
    var s := a + [sep] + b;
    assert s[0] == sep && s[1..] == a[1..] + [sep] + b;
    PrependAppend("", Split(a[1..], sep), Split(b, sep));
  }

  /** Prepending commutes with appending. */
  lemma PrependAppend<T>(h: T, x: seq<T>, y: seq<T>)
    ensures [h] + (x + y) == ([h] + x) + y
  {
  }

  /** The inductive step of `SplitAround` when `a` starts inside a piece. */
  lemma SplitAroundStepInPiece(a: string, b: string, sep: char)
    requires |a| > 0 && a[0] != sep
    requires Split(a[1..] + [sep] + b, sep) == Split(a[1..], sep) + Split(b, sep)
    ensures Split(a + [sep] + b, sep) == Split(a, sep) + Split(b, sep)
  {
    var s := a + [sep] + b;
    assert s[0] == a[0] && s[1..] == a[1..] + [sep] + b;
    var restA := Split(a[1..], sep);
    ReplaceFirstAppend([a[0]] + restA[0], restA, Split(b, sep));
  }

  /** Replacing the first element commutes with appending. */
  lemma ReplaceFirstAppend<T>(h: T, x: seq<T>, y: seq<T>)
    requires |x| >= 1
    ensures (x + y)[0] == x[0]
    ensures [h] + (x + y)[1..] == ([h] + x[1..]) + y
  {
    assert (x + y)[1..] == x[1..] + y;
  }

  /** Splitting distributes over a separator between two strings. */
  lemma {:induction false} SplitAround(a: string, b: string, sep: char)
    ensures Split(a + [sep] + b, sep) == Split(a, sep) + Split(b, sep)
    decreases |a|
  {
    if |a| == 0 {
      var s := a + [sep] + b;
      assert s[0] == sep && s[1..] == b;
    } else {
      SplitAround(a[1..], b, sep);
      if a[0] == sep {
        SplitAroundStepAtSeparator(a, b, sep);
      } else {
        SplitAroundStepInPiece(a, b, sep);
      }
    }
  }

  /** Splitting the join of separator-free pieces gives back the pieces. */
  lemma {:induction false} SplitJoin(pieces: seq<string>, sep: char)
    requires |pieces| >= 1
    requires forall i :: 0 <= i < |pieces| ==> sep !in pieces[i]
    ensures Split(Join(pieces, sep), sep) == pieces
    decreases |pieces|
  {
    SplitWithoutSeparator(pieces[0], sep);
    if |pieces| > 1 {
      SplitJoin(pieces[1..], sep);
      SplitAround(pieces[0], Join(pieces[1..], sep), sep);
      assert [pieces[0]] + pieces[1..] == pieces;
    }
  }

  /**
   * `xs.slice(0, end)`: a negative end counts back from the end of `xs`
   * and is clamped at 0; an end past the length is clamped to the length.
   */
  function SliceTo<T>(xs: seq<T>, end: int): (r: seq<T>)
    ensures r <= xs
    ensures 0 <= end <= |xs| ==> r == xs[..end]
    ensures end >= |xs| ==> r == xs
    ensures end < 0 ==> |r| == if |xs| + end < 0 then 0 else |xs| + end
  {
    var stop :=
      if end < 0 then (if |xs| + end < 0 then 0 else |xs| + end)
      else if end < |xs| then end
      else |xs|;
    xs[..stop]
  }

  /** `s.includes(sub)`: `sub` occurs in `s` as a contiguous substring. */
  predicate Contains(s: string, sub: string) {
    exists k :: 0 <= k <= |s| && sub <= s[k..]
  }
}
