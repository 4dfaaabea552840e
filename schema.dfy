/** The statement splitter of `inicializarBaseDatos` (backend/database/schema.js):
    the SQL script is cut at every `;`, each piece is trimmed, and the pieces
    that are empty or start with `--` are dropped. Reading the file and running
    the statements are I/O and are not part of this model. */
module Schema {
  import opened Text
  import opened Seqs

  /** A trimmed piece is kept when it is non-empty and does not start with `--`. */
  predicate Executable(t: string) {
    |t| > 0 && !StartsWith(t, "--")
  }

  /** `segs.map(s => s.trim())`. */
  function TrimAll(segs: seq<string>): (r: seq<string>)
    ensures |r| == |segs|
    ensures forall i :: 0 <= i < |r| ==> r[i] == Trim(segs[i])
  {
    seq(|segs|, i requires 0 <= i < |segs| => Trim(segs[i]))
  }

  /** What every statement sent looks like: non-empty, free of `;`, trimmed
      at both ends, and not a comment. */
  predicate Clean(t: string) {
    && t != []
    && ';' !in t
    && !IsSpace(t[0]) && !IsSpace(t[|t| - 1])
    && !StartsWith(t, "--")
  }

  /** The statements the initialiser sends to the server, in script order. */
  function Statements(sql: string): (r: seq<string>)
    ensures forall i :: 0 <= i < |r| ==> Clean(r[i])
    ensures forall k :: 0 <= k < |SplitOn(sql, ';')| && Executable(Trim(SplitOn(sql, ';')[k]))
              ==> Trim(SplitOn(sql, ';')[k]) in r
    ensures IsSubsequence(r, TrimAll(SplitOn(sql, ';')))
  {
    var segs := SplitOn(sql, ';');
    FilterIsSubsequence(TrimAll(segs), Executable);
    PiecesClean(segs);
    PiecesKept(segs);
    Filter(TrimAll(segs), Executable)
  }

  lemma {:induction false} PiecesClean(segs: seq<string>)
    requires forall k :: 0 <= k < |segs| ==> ';' !in segs[k]
    ensures forall t :: t in Filter(TrimAll(segs), Executable) ==> Clean(t)
  {
    var trimmed := TrimAll(segs);
    var r := Filter(trimmed, Executable);
    forall t | t in r ensures Clean(t) {
      var k :| 0 <= k < |trimmed| && trimmed[k] == t;
      assert ';' !in segs[k];
    }
  }

  lemma {:induction false} PiecesKept(segs: seq<string>)
    ensures forall k :: 0 <= k < |segs| && Executable(Trim(segs[k]))
              ==> Trim(segs[k]) in Filter(TrimAll(segs), Executable)
  {
    var trimmed := TrimAll(segs);
    forall k | 0 <= k < |segs| && Executable(Trim(segs[k]))
      ensures Trim(segs[k]) in Filter(trimmed, Executable)
    {
      assert trimmed[k] == Trim(segs[k]);
    }
  }


  lemma {:induction false} TrimAllCons(x: string, tail: seq<string>)
    ensures TrimAll([x] + tail) == [Trim(x)] + TrimAll(tail)
  {
    var a := TrimAll([x] + tail);
    var b := [Trim(x)] + TrimAll(tail);
    assert |a| == |b|;
    forall i | 0 <= i < |a| ensures a[i] == b[i] {
      if i > 0 {
        assert ([x] + tail)[i] == tail[i - 1];
      }
    }
  }

  lemma {:induction false} SplitFirstPiece(piece: string, rest: string)
    requires ';' !in piece
    ensures TrimAll(SplitOn(piece + ";" + rest, ';')) == [Trim(piece)] + TrimAll(SplitOn(rest, ';'))
  {
    assert SplitOn(piece + ";" + rest, ';') == [piece] + SplitOn(rest, ';') by {
      assert piece + ";" + rest == piece + [';'] + rest;
      SplitAtFirstSeparator(piece, rest, ';');
    }
    TrimAllCons(piece, SplitOn(rest, ';'));
  }

  /** A piece whose trimmed text starts with `--` is dropped whole, even when
      SQL follows the comment on its later lines. */
  lemma {:induction false} CommentedPieceDropped(piece: string, rest: string)
    requires ';' !in piece && StartsWith(Trim(piece), "--")
    ensures Statements(piece + ";" + rest) == Statements(rest)
  {
    SplitFirstPiece(piece, rest);
    var tail := TrimAll(SplitOn(rest, ';'));
    assert ([Trim(piece)] + tail)[1..] == tail;
  }

  /** A piece that is empty once trimmed is dropped. */
  lemma {:induction false} EmptyPieceDropped(piece: string, rest: string)
    requires ';' !in piece && Trim(piece) == []
    ensures Statements(piece + ";" + rest) == Statements(rest)
  {
    SplitFirstPiece(piece, rest);
    var tail := TrimAll(SplitOn(rest, ';'));
    assert ([Trim(piece)] + tail)[1..] == tail;
  }

  /** The text after the last `;` is the last statement when it holds SQL,
      and adds nothing otherwise. */
  lemma {:induction false} LastPiece(s: string)
    requires ';' !in s
    ensures Statements(s) == if Executable(Trim(s)) then [Trim(s)] else []
  {
    SplitWithoutSeparator(s, ';');
    var x := Trim(s);
    assert TrimAll([s]) == [x];
    assert [x][1..] == [];
    assert Filter([x], Executable) == if Executable(x) then [x] else [];
  }

  /** A piece with SQL in it becomes the next statement, trimmed. */
  lemma {:induction false} ExecutablePieceKept(piece: string, rest: string)
    requires ';' !in piece && Executable(Trim(piece))
    ensures Statements(piece + ";" + rest) == [Trim(piece)] + Statements(rest)
  {
    SplitFirstPiece(piece, rest);
    var tail := TrimAll(SplitOn(rest, ';'));
    assert ([Trim(piece)] + tail)[1..] == tail;
  }
}
