/**
 * The two `java.lang.String` operations whose exact behaviour the tasks
 * depend on: `trim().isEmpty()` for deciding whether a message is blank,
 * and `split(";")` for the skip list.
 */
module JavaString {

  /** `trim` removes every character up to and including U+0020. */
  predicate IsTrimmed(c: char)
  {
    c <= ' '
  }

  /** A string that `trim()` turns into the empty string. */
  predicate IsBlank(s: string)
  {
    forall i :: 0 <= i < |s| ==> IsTrimmed(s[i])
  }

  function TrimStart(s: string): string
  {
    if |s| > 0 && IsTrimmed(s[0]) then TrimStart(s[1..]) else s
  }

  function TrimEnd(s: string): string
  {
    if |s| > 0 && IsTrimmed(s[|s| - 1]) then TrimEnd(s[..|s| - 1]) else s
  }

  /** `TrimStart` leaves a suffix that starts with a kept character. */
  lemma {:induction false} TrimStartSuffix(s: string)
    ensures |TrimStart(s)| <= |s| && TrimStart(s) == s[|s| - |TrimStart(s)|..]
    ensures TrimStart(s) == [] || !IsTrimmed(TrimStart(s)[0])
  {
    if |s| > 0 && IsTrimmed(s[0]) {
      TrimStartSuffix(s[1..]);
    }
  }

  /** `String.trim`. */
  function Trim(s: string): string
  {
    TrimEnd(TrimStart(s))
  }

  lemma {:induction false} TrimStartEmpty(s: string)
    ensures TrimStart(s) == [] <==> IsBlank(s)
  {
    if |s| > 0 && IsTrimmed(s[0]) {
      TrimStartEmpty(s[1..]);
      assert IsBlank(s[1..]) ==> IsBlank(s) by {
        if IsBlank(s[1..]) {
          forall i | 0 <= i < |s| ensures IsTrimmed(s[i]) {
            if i > 0 { assert s[i] == s[1..][i - 1]; }
          }
        }
      }
    }
  }

  lemma {:induction false} TrimEndEmpty(s: string)
    ensures TrimEnd(s) == [] <==> IsBlank(s)
  {
    if |s| > 0 && IsTrimmed(s[|s| - 1]) {
      TrimEndEmpty(s[..|s| - 1]);
      assert IsBlank(s[..|s| - 1]) ==> IsBlank(s) by {
        if IsBlank(s[..|s| - 1]) {
          forall i | 0 <= i < |s| ensures IsTrimmed(s[i]) {
            if i < |s| - 1 { assert s[i] == s[..|s| - 1][i]; }
          }
        }
      }
    }
  }

  /** `s.trim().isEmpty()` holds exactly for the blank strings. */
  lemma TrimEmptyIffBlank(s: string)
    ensures Trim(s) == [] <==> IsBlank(s)
  {
    TrimStartEmpty(s);
    TrimEndEmpty(TrimStart(s));
    TrimStartSuffix(s);
    if TrimStart(s) != [] {
      assert !IsBlank(TrimStart(s));
      assert !IsBlank(s) by {
        var k := |s| - |TrimStart(s)|;
        assert s[k] == TrimStart(s)[0];
      }
    }
  }

  /** The pieces between separators, empty pieces included: what `split`
      computes before it drops the trailing empty ones. */
  function Pieces(s: string, sep: char): (r: seq<string>)
    ensures |r| >= 1
    ensures forall i :: 0 <= i < |r| ==> sep !in r[i]
  {
    if |s| == 0 then [""]
    else
      var rest := Pieces(s[1..], sep);
      if s[0] == sep then [""] + rest else [[s[0]] + rest[0]] + rest[1..]
  }

  /** Joins pieces with the separator between consecutive ones. */
  function Join(pieces: seq<string>, sep: char): string
    requires |pieces| >= 1
  {
    if |pieces| == 1 then pieces[0] else pieces[0] + [sep] + Join(pieces[1..], sep)
  }

  /** Nothing is lost in `Pieces`: joining them back gives the string. */
  lemma {:induction false} JoinPieces(s: string, sep: char)
    ensures Join(Pieces(s, sep), sep) == s
  {
    if |s| > 0 {
      var rest := Pieces(s[1..], sep);
      JoinPieces(s[1..], sep);
      if s[0] == sep {
        assert Pieces(s, sep)[1..] == rest;
        assert s == [sep] + s[1..];
      } else {
        var ps := Pieces(s, sep);
        if |rest| == 1 {
          assert ps == [[s[0]] + rest[0]];
          assert s == [s[0]] + s[1..];
        } else {
          assert ps[1..] == rest[1..];
          assert Join(rest, sep) == rest[0] + [sep] + Join(rest[1..], sep);
          assert s == [s[0]] + s[1..];
        }
      }
    }
  }

  /** Drops the empty strings at the end of a sequence of pieces. */
  function DropTrailingEmpty(pieces: seq<string>): (r: seq<string>)
    ensures |r| <= |pieces| && r == pieces[..|r|]
    ensures r == [] || r[|r| - 1] != ""
    ensures forall i :: |r| <= i < |pieces| ==> pieces[i] == ""
  {
    if |pieces| > 0 && pieces[|pieces| - 1] == "" then DropTrailingEmpty(pieces[..|pieces| - 1])
    else pieces
  }

  /** `s.split(regex)` for a regex that matches exactly the one character
      `sep`: a string without the separator is returned whole (so `""`
      yields `[""]`); otherwise the pieces, without the trailing empty ones. */
  function Split(s: string, sep: char): (r: seq<string>)
    ensures forall i :: 0 <= i < |r| ==> sep !in r[i]
    ensures sep !in s ==> r == [s]
    ensures sep in s ==> r == [] || r[|r| - 1] != ""
  {
    if sep !in s then [s] else DropTrailingEmpty(Pieces(s, sep))
  }

  /** `split` only drops empty trailing pieces: put them back and join,
      and the original string returns. */
  lemma SplitRoundTrip(s: string, sep: char)
    ensures |Split(s, sep)| <= |Pieces(s, sep)|
    ensures Pieces(s, sep) == Split(s, sep) + seq(|Pieces(s, sep)| - |Split(s, sep)|, _ => "")
    ensures Join(Split(s, sep) + seq(|Pieces(s, sep)| - |Split(s, sep)|, _ => ""), sep) == s
  {
    var ps, r := Pieces(s, sep), Split(s, sep);
    if sep !in s {
      PiecesWithoutSeparator(s, sep);
    }
    assert ps == r + seq(|ps| - |r|, _ => "") by {
      assert ps == ps[..|r|] + ps[|r|..];
    }
    JoinPieces(s, sep);
  }

  /** Without a separator there is exactly one piece, the string itself. */
  lemma {:induction false} PiecesWithoutSeparator(s: string, sep: char)
    requires sep !in s
    ensures Pieces(s, sep) == [s]
  {
    if |s| > 0 {
      PiecesWithoutSeparator(s[1..], sep);
      assert s == [s[0]] + s[1..];
    }
  }
}
