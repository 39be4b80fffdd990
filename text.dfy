/**
 * String helpers with the semantics of the Python built-ins the wrapper uses:
 * `sep.join(parts)`, `s.split(sep)` and `str(n)` on a non-negative integer.
 */
module Text {

  /** Python's `sep.join(parts)`: the parts in order, with `sep` between neighbours. */
  function Join(sep: string, parts: seq<string>): string
  {
    if parts == [] then []
    else if |parts| == 1 then parts[0]
    else parts[0] + sep + Join(sep, parts[1..])
  }

  /** Joining `[""] + parts` puts one separator in front of the joined rest. */
  lemma JoinConsEmpty(sep: string, parts: seq<string>)
    requires parts != []
    ensures Join(sep, [""] + parts) == sep + Join(sep, parts)
  {
    assert ([""] + parts)[1..] == parts;
  }

  /** Gluing text onto the first part glues it onto the front of the joined result. */
  lemma JoinPrependFirst(sep: string, s: string, parts: seq<string>)
    requires parts != []
    ensures Join(sep, [s + parts[0]] + parts[1..]) == s + Join(sep, parts)
  {
    var glued := [s + parts[0]] + parts[1..];
    assert glued[1..] == parts[1..];
  }

  /**
   * Python's `s.split(sep)` for a one-character separator: the maximal pieces
   * between separators, always at least one piece (`"".split(",") == [""]`).
   */
  function Split(s: string, sep: char): (r: seq<string>)
    ensures |r| >= 1
    ensures forall k :: 0 <= k < |r| ==> sep !in r[k]
    decreases |s|
  {
    if s == [] then [[]]
    else
      var rest := Split(s[1..], sep);
      if s[0] == sep then [[]] + rest
      else [[s[0]] + rest[0]] + rest[1..]
  }

  /** A separator-free piece followed by the separator is split off as the first piece. */
  lemma {:induction false} SplitPieceThenSep(piece: string, sep: char, rest: string)
    requires sep !in piece
    ensures Split(piece + [sep] + rest, sep) == [piece] + Split(rest, sep)
    decreases |piece|
  {
    if piece == [] {
      assert piece + [sep] + rest == [sep] + rest;
      assert ([sep] + rest)[1..] == rest;
    } else {
      var s := piece + [sep] + rest;
      assert s[0] == piece[0];
      assert s[1..] == piece[1..] + [sep] + rest;
      SplitPieceThenSep(piece[1..], sep, rest);
      assert [piece[0]] + piece[1..] == piece;
    }
  }

  /** A separator-free string is one piece. */
  lemma {:induction false} SplitSinglePiece(piece: string, sep: char)
    requires sep !in piece
    ensures Split(piece, sep) == [piece]
    decreases |piece|
  {
    if piece != [] {
      SplitSinglePiece(piece[1..], sep);
      assert [piece[0]] + piece[1..] == piece;
    }
  }

  /**
   * Splitting on the separator undoes joining with it, provided there is at
   * least one part and no part contains the separator.
   */
  lemma {:induction false} SplitJoinRoundTrip(parts: seq<string>, sep: char)
    requires parts != []
    requires forall k :: 0 <= k < |parts| ==> sep !in parts[k]
    ensures Split(Join([sep], parts), sep) == parts
    decreases |parts|
  {
    if |parts| == 1 {
      SplitSinglePiece(parts[0], sep);
    } else {
      SplitJoinRoundTrip(parts[1..], sep);
      SplitPieceThenSep(parts[0], sep, Join([sep], parts[1..]));
      assert [parts[0]] + parts[1..] == parts;
    }
  }

  /** The digit character for `d`. */
  function DigitChar(d: nat): (c: char)
    requires d < 10
    ensures '0' <= c <= '9' && c as int - '0' as int == d
  {
    ('0' as int + d) as char
  }

  predicate IsDigit(c: char) {
    '0' <= c <= '9'
  }

  /** Python's `str(n)` for a non-negative integer: decimal, no leading zero. */
  function NatToString(n: nat): (r: string)
    ensures |r| >= 1
    ensures forall k :: 0 <= k < |r| ==> IsDigit(r[k])
    ensures |r| > 1 ==> r[0] != '0'
    ensures n < 10 <==> |r| == 1
    decreases n
  {
    if n < 10 then [DigitChar(n)]
    else NatToString(n / 10) + [DigitChar(n % 10)]
  }

  /** Decimal value of a string of digits (the reading `int(s)` gives). */
  function DecimalValue(s: string): nat
    requires forall k :: 0 <= k < |s| ==> IsDigit(s[k])
  {
    if s == [] then 0
    else
      assert IsDigit(s[|s| - 1]);
      10 * DecimalValue(s[..|s| - 1]) + (s[|s| - 1] as int - '0' as int)
  }

  /** Reading back `str(n)` gives `n`. */
  lemma {:induction false} NatToStringRoundTrip(n: nat)
    ensures DecimalValue(NatToString(n)) == n
    decreases n
  {
    if n >= 10 {
      NatToStringRoundTrip(n / 10);
      var s := NatToString(n);
      assert s[..|s| - 1] == NatToString(n / 10);
    }
  }
}
