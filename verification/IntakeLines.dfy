/** Reading a request body that holds one document per line, for any way of reading a document. */
module IntakeLines {
  import opened Prelude
  import opened Text

  /** The rows of one document; None is a document that is refused. */
  type Reader<R> = string -> Option<seq<R>>

  /** Rows in front of further ones; None stays None. */
  function InFront<R>(rows: seq<R>, more: Option<seq<R>>): Option<seq<R>> {
    if more.None? then None else Some(rows + more.value)
  }

  function Then<R>(first: Option<seq<R>>, more: Option<seq<R>>): Option<seq<R>> {
    if first.None? then None else InFront(first.value, more)
  }

  /** The rows of several documents; one refused document refuses them all. */
  function AllRows<R>(documents: seq<string>, read: Reader<R>): Option<seq<R>> {
    if documents == [] then Some([])
    else Then(read(documents[0]), AllRows(documents[1..], read))
  }

  /** The trimmed pieces that are not empty. */
  function NonEmpty(pieces: seq<string>): seq<string> {
    if pieces == [] then []
    else if Trim(pieces[0]) == "" then NonEmpty(pieces[1..])
    else [Trim(pieces[0])] + NonEmpty(pieces[1..])
  }

  /** The documents of a body from position `begin` on. */
  function Lines(body: string, begin: nat): seq<string> {
    if begin > |body| then [] else NonEmpty(SplitOn(body[begin..], '\n'))
  }

  function LineRows<R>(line: string, read: Reader<R>): Option<seq<R>> {
    if line == "" then Some([]) else read(line)
  }

  /** The rows of the lines from `begin` on, line by line as the loop meets them. */
  function RowsFrom<R>(body: string, begin: nat, read: Reader<R>): Option<seq<R>>
    decreases |body| - begin
  {
    if begin >= |body| then Some([])
    else
      var end := Find(body, '\n', begin);
      Then(LineRows(Trim(body[begin..end]), read), RowsFrom(body, end + 1, read))
  }

  lemma NothingInFront<R>(rows: Option<seq<R>>)
    ensures InFront([], rows) == rows
  {
    if rows.Some? {
      assert [] + rows.value == rows.value;
    }
  }

  lemma InFrontTwice<R>(rows: seq<R>, first: Option<seq<R>>, more: Option<seq<R>>)
    ensures InFront(rows, Then(first, more)) == Then(InFront(rows, first), more)
  {
    if first.Some? && more.Some? {
      assert rows + (first.value + more.value) == rows + first.value + more.value;
    }
  }

  lemma NextRows<R>(body: string, begin: nat, read: Reader<R>, rows: seq<R>)
    requires begin < |body|
    ensures var end := Find(body, '\n', begin);
            InFront(rows, RowsFrom(body, begin, read)) ==
            Then(InFront(rows, LineRows(Trim(body[begin..end]), read)), RowsFrom(body, end + 1, read))
  {
    var end := Find(body, '\n', begin);
    InFrontTwice(rows, LineRows(Trim(body[begin..end]), read), RowsFrom(body, end + 1, read));
  }

  lemma OneDocument<R>(text: string, read: Reader<R>)
    ensures AllRows([text], read) == read(text)
  {
    assert [text][1..] == [];
    var rows := read(text);
    if rows.Some? {
      assert rows.value + [] == rows.value;
    }
  }

  /** A body is refused exactly when one of its documents is. */
  lemma {:induction false} RefusedIff<R>(documents: seq<string>, read: Reader<R>)
    ensures AllRows(documents, read).None? <==> exists i :: 0 <= i < |documents| && read(documents[i]).None?
  {
    if documents != [] {
      var rest := documents[1..];
      RefusedIff(rest, read);
      if AllRows(rest, read).None? {
        var i :| 0 <= i < |rest| && read(rest[i]).None?;
        assert read(documents[i + 1]).None?;
      } else {
        assert forall i :: 0 < i < |documents| ==> documents[i] == rest[i - 1];
      }
    }
  }

  // ----- the loop reads the lines -----

  lemma NonEmptyFirst(piece: string, rest: seq<string>)
    ensures NonEmpty([piece] + rest) == if Trim(piece) == "" then NonEmpty(rest) else [Trim(piece)] + NonEmpty(rest)
    ensures [piece] + [] == [piece]
  {
    assert ([piece] + rest)[1..] == rest;
  }

  lemma AroundPosition(s: string, begin: nat, k: nat)
    requires begin <= k < |s|
    ensures s[begin..] == s[begin..k] + [s[k]] + s[k + 1..]
  {
  }

  lemma NothingLeft(body: string, begin: nat)
    requires begin >= |body|
    ensures Lines(body, begin) == []
  {
    if begin == |body| {
      assert [""][1..] == [];
    }
  }

  /** The next line and what the documents of the rest are. */
  lemma NextLine(body: string, begin: nat)
    requires begin < |body|
    ensures var end := Find(body, '\n', begin);
            var line := Trim(body[begin..end]);
            Lines(body, begin) == if line == "" then Lines(body, end + 1) else [line] + Lines(body, end + 1)
  {
    var end := Find(body, '\n', begin);
    var line := body[begin..end];
    if end == |body| {
      assert line == body[begin..];
      SplitPiece(line, "", '\n');
      NonEmptyFirst(line, []);
    } else {
      var rest := body[end + 1..];
      SplitPiece(line, rest, '\n');
      AroundPosition(body, begin, end);
      NonEmptyFirst(line, SplitOn(rest, '\n'));
    }
  }

  lemma FirstLineRows<R>(all: seq<string>, line: string, rest: seq<string>, read: Reader<R>)
    requires all == if line == "" then rest else [line] + rest
    ensures AllRows(all, read) == Then(LineRows(line, read), AllRows(rest, read))
  {
    if line == "" {
      NothingInFront(AllRows(rest, read));
    } else {
      assert all[1..] == rest;
    }
  }

  /** The rows from a line on, once those from the next line on are known. */
  lemma RowsFromLine<R>(body: string, begin: nat, read: Reader<R>, all: seq<string>, rest: seq<string>)
    requires begin < |body|
    requires var line := Trim(body[begin..Find(body, '\n', begin)]);
             all == if line == "" then rest else [line] + rest
    requires RowsFrom(body, Find(body, '\n', begin) + 1, read) == AllRows(rest, read)
    ensures RowsFrom(body, begin, read) == AllRows(all, read)
  {
    FirstLineRows(all, Trim(body[begin..Find(body, '\n', begin)]), rest, read);
  }

  /** The loop reads exactly the non-empty trimmed pieces between newlines. */
  lemma {:induction false} RowsFromIsLines<R>(body: string, begin: nat, read: Reader<R>)
    ensures RowsFrom(body, begin, read) == AllRows(Lines(body, begin), read)
    decreases |body| - begin
  {
    if begin >= |body| {
      NothingLeft(body, begin);
    } else {
      var next := Find(body, '\n', begin) + 1;
      NextLine(body, begin);
      RowsFromIsLines(body, next, read);
      RowsFromLine(body, begin, read, Lines(body, begin), Lines(body, next));
    }
  }
}
