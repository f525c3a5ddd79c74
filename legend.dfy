/** Splitting the legend text into the panel's lines, as Go's
    `strings.Split(legend, "\n")` does: every newline ends a piece, so the
    empty legend is one empty piece and a trailing newline leaves an empty last
    piece. */
module Legend {

  const Newline: char := '\n'

  /** The pieces of `s` between newlines, in order. */
  function Split(s: string): (pieces: seq<string>)
    ensures |pieces| >= 1
  {
    if s == [] then [""]
    else
      var rest := Split(s[1..]);
      if s[0] == Newline then [""] + rest
      else [[s[0]] + rest[0]] + rest[1..]
  }

  /** The pieces glued back together with a newline between neighbours. */
  function Join(pieces: seq<string>): string
    requires |pieces| >= 1
  {
    if |pieces| == 1 then pieces[0] else pieces[0] + [Newline] + Join(pieces[1..])
  }

  /** The number of newlines in `s`. */
  function NewlineCount(s: string): nat {
    if s == [] then 0 else (if s[0] == Newline then 1 else 0) + NewlineCount(s[1..])
  }

  /** No piece contains a newline. */
  lemma {:induction false} SplitPiecesHaveNoNewline(s: string)
    ensures forall k :: 0 <= k < |Split(s)| ==> Newline !in Split(s)[k]
  {
    if s != [] {
      SplitPiecesHaveNoNewline(s[1..]);
    }
  }

  /** Joining the pieces with newlines gives back the legend. */
  lemma {:induction false} JoinSplit(s: string)
    ensures Join(Split(s)) == s
  {
    if s != [] {
      var rest := Split(s[1..]);
      JoinSplit(s[1..]);
      if s[0] == Newline {
        assert ([""] + rest)[1..] == rest;
      } else if |rest| == 1 {
        assert [s[0]] + rest[0] == s;
      } else {
        var pieces := [[s[0]] + rest[0]] + rest[1..];
        assert pieces[1..] == rest[1..];
        assert Join(rest) == rest[0] + [Newline] + Join(rest[1..]);
        assert Join(pieces) == [s[0]] + rest[0] + [Newline] + Join(rest[1..]);
      }
    }
  }

  /** There is one piece more than there are newlines. */
  lemma {:induction false} SplitLength(s: string)
    ensures |Split(s)| == NewlineCount(s) + 1
  {
    if s != [] {
      SplitLength(s[1..]);
    }
  }

  /** A newline-free prefix merges into the first piece of what follows it. */
  lemma {:induction false} SplitPrefix(p: string, s: string)
    requires Newline !in p
    ensures Split(p + s) == [p + Split(s)[0]] + Split(s)[1..]
  {
    if p != [] {
      assert (p + s)[0] == p[0] && (p + s)[1..] == p[1..] + s;
      assert p[0] != Newline && Newline !in p[1..];
      SplitPrefix(p[1..], s);
      var rest := Split(p[1..] + s);
      assert rest[0] == p[1..] + Split(s)[0] && rest[1..] == Split(s)[1..];
      assert [p[0]] + rest[0] == p + Split(s)[0];
    } else {
      var pieces := Split(s);
      assert p + s == s && p + pieces[0] == pieces[0];
      assert pieces == [pieces[0]] + pieces[1..];
    }
  }

  /** Splitting newline-free pieces joined with newlines gives back the pieces. */
  lemma {:induction false} SplitJoin(pieces: seq<string>)
    requires |pieces| >= 1
    requires forall k :: 0 <= k < |pieces| ==> Newline !in pieces[k]
    ensures Split(Join(pieces)) == pieces
  {
    if |pieces| == 1 {
      SplitPrefix(pieces[0], "");
      assert pieces[0] + "" == pieces[0];
    } else {
      var tail := Join(pieces[1..]);
      SplitJoin(pieces[1..]);
      var nl: string := [Newline];
      assert Split(nl + tail) == [""] + Split(tail) by {
        assert (nl + tail)[1..] == tail;
      }
      SplitPrefix(pieces[0], nl + tail);
      assert pieces[0] + [Newline] + tail == pieces[0] + (nl + tail);
      assert pieces[0] + "" == pieces[0];
      assert pieces == [pieces[0]] + pieces[1..];
    }
  }

  /** A trailing newline adds one empty last piece. */
  lemma {:induction false} SplitTrailingNewline(s: string)
    ensures Split(s + [Newline]) == Split(s) + [""]
  {
    if s == [] {
      assert [Newline][1..] == [];
    } else {
      assert (s + [Newline])[0] == s[0] && (s + [Newline])[1..] == s[1..] + [Newline];
      SplitTrailingNewline(s[1..]);
      var rest := Split(s[1..]);
      if s[0] != Newline {
        assert (rest + [""])[1..] == rest[1..] + [""];
      }
    }
  }
}
