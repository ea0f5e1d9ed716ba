/** Go's strings.Join and strings.Split for a separator of one character. */
module Text {

  function Join(pieces: seq<string>, sep: char): string {
    if pieces == [] then ""
    else if |pieces| == 1 then pieces[0]
    else pieces[0] + [sep] + Join(pieces[1..], sep)
  }

  /** The text up to the first separator, or all of it. */
  function Head(text: string, sep: char): string {
    if text == "" || text[0] == sep then "" else [text[0]] + Head(text[1..], sep)
  }

  function Split(text: string, sep: char): (pieces: seq<string>)
    ensures pieces != []
    decreases |text|
  {
    var head := Head(text, sep);
    HeadLength(text, sep);
    if |head| == |text| then [text] else [head] + Split(text[|head| + 1..], sep)
  }

  lemma {:induction false} HeadLength(text: string, sep: char)
    ensures |Head(text, sep)| <= |text|
  {
    if text != "" && text[0] != sep {
      HeadLength(text[1..], sep);
    }
  }

  /** A piece free of the separator ends where the separator, or the text, does. */
  lemma {:induction false} HeadOfPiece(piece: string, rest: string, sep: char)
    requires sep !in piece
    requires rest == "" || rest[0] == sep
    ensures Head(piece + rest, sep) == piece
  {
    if piece == "" {
      assert piece + rest == rest;
    } else {
      assert (piece + rest)[1..] == piece[1..] + rest;
      HeadOfPiece(piece[1..], rest, sep);
    }
  }

  /** Splitting undoes joining when there is a piece and no piece holds the separator. */
  lemma {:induction false} SplitJoin(pieces: seq<string>, sep: char)
    requires pieces != [] && forall p | p in pieces :: sep !in p
    ensures Split(Join(pieces, sep), sep) == pieces
  {
    var text := Join(pieces, sep);
    if |pieces| == 1 {
      HeadOfPiece(pieces[0], "", sep);
      assert pieces[0] + "" == pieces[0];
    } else {
      var rest := [sep] + Join(pieces[1..], sep);
      assert text == pieces[0] + rest;
      HeadOfPiece(pieces[0], rest, sep);
      assert text[|pieces[0]| + 1..] == Join(pieces[1..], sep);
      SplitJoin(pieces[1..], sep);
    }
  }

  /** The first piece is free of the separator, and ends where it, or the text, does. */
  lemma {:induction false} HeadIsPiece(text: string, sep: char)
    ensures Head(text, sep) <= text && sep !in Head(text, sep)
    ensures |Head(text, sep)| < |text| ==> text[|Head(text, sep)|] == sep
  {
    if text != "" && text[0] != sep {
      HeadIsPiece(text[1..], sep);
    }
  }

  /** Joining undoes splitting, and no piece holds the separator. With SplitJoin: splitting gives the
      one list of such pieces that joins to the text. */
  lemma {:induction false} JoinSplit(text: string, sep: char)
    ensures Join(Split(text, sep), sep) == text
    ensures forall p | p in Split(text, sep) :: sep !in p
    decreases |text|
  {
    var head := Head(text, sep);
    HeadIsPiece(text, sep);
    if |head| < |text| {
      JoinSplit(text[|head| + 1..], sep);
      assert text == head + [sep] + text[|head| + 1..];
      assert ([head] + Split(text[|head| + 1..], sep))[1..] == Split(text[|head| + 1..], sep);
    }
  }
}
