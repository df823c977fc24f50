/** The comma-separated reader that loads the sanctions list. */
module Csv {

  type Row = seq<string>
  type Table = seq<Row>

  // ---- the parser, as the source writes it

  method ParseCsv(text: string) returns (rows: Table)
    ensures rows == Parse(text)
  {
    rows := [];
    var row: Row, field, inQuotes, i := [], "", false, 0;
    assert text[0..] == text;
    while i < |text|
      invariant i <= |text|
      invariant Parse(text) == Finish(Fold(text[i..], Scan(rows, row, field, Between(inQuotes))))
    {
      var c := text[i];
      SkipOne(text, i, Scan(rows, row, field, Between(inQuotes)));
      if inQuotes {
        if c == '"' {
          if i + 1 < |text| && text[i + 1] == '"' {
            EscapedQuote(text, i, Scan(rows, row, field, Quoted));
            field := field + "\"";
            i := i + 2;
            continue;
          }
          ClosingQuote(text[i + 1..], Scan(rows, row, field, Plain));
          inQuotes := false;
          i := i + 1;
          continue;
        }
        field := field + [c];
        i := i + 1;
        continue;
      }
      if c == '"' {
        inQuotes := true;
        i := i + 1;
        continue;
      }
      if c == ',' {
        row := row + [field];
        field := "";
        i := i + 1;
        continue;
      }
      if c == '\r' {
        i := i + 1;
        continue;
      }
      if c == '\n' {
        row := row + [field];
        rows := rows + [row];
        row := [];
        field := "";
        i := i + 1;
        continue;
      }
      field := field + [c];
      i := i + 1;
    }
    if |field| > 0 || |row| > 0 {
      row := row + [field];
      rows := rows + [row];
    }
  }

  // ---- the same parser without lookahead: one step for each character

  /** `AfterQuote`: the last character was a quote inside a quoted stretch,
      which closes the stretch unless another quote follows. */
  datatype Mode = Plain | Quoted | AfterQuote

  datatype Scan = Scan(rows: Table, row: Row, field: string, mode: Mode)

  const START := Scan([], [], "", Plain)

  function Between(inQuotes: bool): Mode { if inQuotes then Quoted else Plain }

  function Step(s: Scan, c: char): Scan
  {
    match s.mode
    case Quoted =>
      if c == '"' then s.(mode := AfterQuote) else s.(field := s.field + [c])
    case AfterQuote =>
      if c == '"' then s.(field := s.field + "\"", mode := Quoted) else PlainStep(s, c)
    case Plain => PlainStep(s, c)
  }

  function PlainStep(s: Scan, c: char): Scan
  {
    if c == '"' then s.(mode := Quoted)
    else if c == ',' then Scan(s.rows, s.row + [s.field], "", Plain)
    else if c == '\r' then s.(mode := Plain)
    else if c == '\n' then Scan(s.rows + [s.row + [s.field]], [], "", Plain)
    else s.(field := s.field + [c], mode := Plain)
  }

  function Fold(text: string, s: Scan): Scan
  {
    if text == "" then s else Fold(text[1..], Step(s, text[0]))
  }

  /** Whatever is left after the last terminator is a row, unless nothing is left. */
  function Finish(s: Scan): Table
  {
    if s.field != "" || s.row != [] then s.rows + [s.row + [s.field]] else s.rows
  }

  function Parse(text: string): Table { Finish(Fold(text, START)) }

  lemma SkipOne(text: string, i: nat, s: Scan)
    requires i < |text|
    ensures Fold(text[i..], s) == Fold(text[i + 1..], Step(s, text[i]))
  {
    assert text[i..][1..] == text[i + 1..];
  }

  lemma EscapedQuote(text: string, i: nat, s: Scan)
    requires i + 1 < |text| && text[i] == text[i + 1] == '"' && s.mode == Quoted
    ensures Fold(text[i..], s) == Fold(text[i + 2..], s.(field := s.field + "\""))
  {
    SkipOne(text, i, s);
    SkipOne(text, i + 1, Step(s, '"'));
  }

  /** With no quote next, closing at once and closing late read the same rows. */
  lemma ClosingQuote(rest: string, s: Scan)
    requires s.mode == Plain && (rest != "" ==> rest[0] != '"')
    ensures Finish(Fold(rest, s.(mode := AfterQuote))) == Finish(Fold(rest, s))
  {
  }

  // ---- concatenation

  lemma {:induction false} FoldConcat(a: string, b: string, s: Scan)
    ensures Fold(a + b, s) == Fold(b, Fold(a, s))
  {
    if a == "" {
      assert a + b == b;
    } else {
      assert (a + b)[1..] == a[1..] + b;
      FoldConcat(a[1..], b, Step(s, a[0]));
    }
  }

  /** `s` after the rows `before` had already been read. */
  function Preceded(before: Table, s: Scan): Scan { s.(rows := before + s.rows) }

  lemma {:induction false} RowsOnlyGrow(text: string, before: Table, s: Scan)
    ensures Fold(text, Preceded(before, s)) == Preceded(before, Fold(text, s))
  {
    if text != "" {
      assert Step(Preceded(before, s), text[0]).rows
          == Preceded(before, Step(s, text[0])).rows;
      RowsOnlyGrow(text[1..], before, Step(s, text[0]));
    }
  }

  /** Everything read so far ended in complete rows. */
  predicate Complete(text: string)
  {
    var s := Fold(text, START);
    s.row == [] && s.field == "" && s.mode == Plain
  }

  lemma CompleteThen(a: string, b: string)
    requires Complete(a)
    ensures Parse(a + b) == Parse(a) + Parse(b)
    ensures Complete(a + b) <==> Complete(b)
  {
    FoldConcat(a, b, START);
    var rows := Fold(a, START).rows;
    assert Fold(a, START) == Preceded(rows, START);
    RowsOnlyGrow(b, rows, START);
  }

  /** A text that stops inside a row, and one continuation that shows it. */
  lemma IncompleteShows(a: string)
    requires !Complete(a)
    ensures exists b :: Parse(a + b) != Parse(a) + Parse(b)
  {
    var s := Fold(a, START);
    var b := if s.row != [] || s.field != "" then (if s.mode == Quoted then "\"x" else "x")
             else if s.mode == Quoted then "\n" else "\"x";
    FoldConcat(a, b, START);
    FoldTwo(b, s);
    FoldTwo(b, START);
    if s.row != [] || s.field != "" {
      assert |Parse(a + b)| == |s.rows| + 1;
      assert |Parse(a) + Parse(b)| == |s.rows| + 2;
    } else {
      LoneField(Fold(b, s));
      LoneField(Fold(b, START));
      LoneField(s);
      assert |Parse(a + b)[|s.rows|][0]| == |Parse(b)[0][0]| + 1;
      assert Parse(a + b)[|s.rows|] != (Parse(a) + Parse(b))[|s.rows|];
    }
  }

  lemma LoneField(s: Scan)
    requires s.row == []
    ensures Finish(s) == if s.field == "" then s.rows else s.rows + [[s.field]]
  {
    assert [] + [s.field] == [s.field];
  }

  lemma FoldTwo(b: string, s: Scan)
    requires 1 <= |b| <= 2
    ensures Fold(b, s) == if |b| == 1 then Step(s, b[0]) else Step(Step(s, b[0]), b[1])
  {
    assert Fold(b[1..], Step(s, b[0])) == Fold(b, s);
  }

  /** A text may be cut off from whatever follows it exactly when it is complete. */
  lemma SplitsIffComplete(a: string)
    ensures (forall b :: Parse(a + b) == Parse(a) + Parse(b)) <==> Complete(a)
  {
    if Complete(a) {
      forall b ensures Parse(a + b) == Parse(a) + Parse(b) { CompleteThen(a, b); }
    } else {
      IncompleteShows(a);
    }
  }

  // ---- writing: section 2 of RFC 4180, and whatever else the parser reads back

  /** A stretch of a field with the writer's choice of quoting it. */
  datatype Piece = Piece(text: string, quoted: bool)

  /** A field as its writer cut it into pieces; RFC 4180 has one piece, of either kind. */
  type Cell = seq<Piece>

  /** A record with the writer's choice of terminator. */
  datatype Line = Line(cells: seq<Cell>, crlf: bool)

  predicate Separates(c: char) { c == '"' || c == ',' || c == '\n' }

  /** Quotes, commas and line feeds must be quoted; anything may be. */
  predicate SoundPiece(piece: Piece)
  {
    piece.quoted || (piece.text != "" && forall i :: 0 <= i < |piece.text| ==> !Separates(piece.text[i]))
  }

  /** Two quoted pieces do not touch: the quotes between them would read as one. */
  predicate Sound(cell: Cell)
  {
    (forall i :: 0 <= i < |cell| ==> SoundPiece(cell[i])) &&
    (forall i :: 0 < i < |cell| ==> !cell[i - 1].quoted || !cell[i].quoted)
  }

  predicate SoundCells(cells: seq<Cell>)
  {
    cells != [] && forall i :: 0 <= i < |cells| ==> Sound(cells[i])
  }

  predicate SoundLines(lines: seq<Line>)
  {
    forall i :: 0 <= i < |lines| ==> SoundCells(lines[i].cells)
  }

  function Escape(text: string): string
  {
    if text == "" then ""
    else (if text[0] == '"' then "\"\"" else [text[0]]) + Escape(text[1..])
  }

  function WritePiece(piece: Piece): string
  {
    if piece.quoted then "\"" + Escape(piece.text) + "\"" else piece.text
  }

  function WriteCell(cell: Cell): string
  {
    if cell == [] then "" else WritePiece(cell[0]) + WriteCell(cell[1..])
  }

  /** Outside quotes a carriage return is no part of the field. */
  function WithoutReturns(text: string): string
  {
    if text == "" then "" else (if text[0] == '\r' then "" else [text[0]]) + WithoutReturns(text[1..])
  }

  function PieceText(piece: Piece): string
  {
    if piece.quoted then piece.text else WithoutReturns(piece.text)
  }

  function Text(cell: Cell): string
  {
    if cell == [] then "" else PieceText(cell[0]) + Text(cell[1..])
  }

  function WriteCells(cells: seq<Cell>): string
    requires cells != []
  {
    if |cells| == 1 then WriteCell(cells[0])
    else WriteCell(cells[0]) + "," + WriteCells(cells[1..])
  }

  function Terminator(crlf: bool): string { if crlf then "\r\n" else "\n" }

  function Write(lines: seq<Line>): string
    requires SoundLines(lines)
  {
    if lines == [] then ""
    else WriteCells(lines[0].cells) + Terminator(lines[0].crlf) + Write(lines[1..])
  }

  function Texts(cells: seq<Cell>): Row { seq(|cells|, i requires 0 <= i < |cells| => Text(cells[i])) }

  function Contents(lines: seq<Line>): Table
  {
    seq(|lines|, i requires 0 <= i < |lines| => Texts(lines[i].cells))
  }

  lemma Regroup(a: string, b: string, c: string)
    ensures a + b + c == a + (b + c)
  {
  }

  lemma {:induction false} ReadPlain(text: string, s: Scan)
    requires s.mode != Quoted && SoundPiece(Piece(text, false))
    ensures Fold(text, s) == s.(field := s.field + WithoutReturns(text), mode := Plain)
  {
    var next := Step(s, text[0]);
    assert next == s.(field := s.field + WithoutReturns([text[0]]), mode := Plain);
    if |text| == 1 {
      assert text == [text[0]];
    } else {
      ReadPlain(text[1..], next);
      Regroup(s.field, WithoutReturns([text[0]]), WithoutReturns(text[1..]));
    }
  }

  lemma ReadEscapedChar(c: char, rest: string, s: Scan)
    requires s.mode == Quoted
    ensures Fold((if c == '"' then "\"\"" else [c]) + rest, s)
         == Fold(rest, s.(field := s.field + [c]))
  {
    var written := if c == '"' then "\"\"" else [c];
    FoldConcat(written, rest, s);
    FoldTwo(written, s);
  }

  lemma {:induction false} ReadEscaped(text: string, s: Scan)
    requires s.mode == Quoted
    ensures Fold(Escape(text), s) == s.(field := s.field + text)
  {
    if text == "" {
      assert s.field + text == s.field;
    } else {
      var next := s.(field := s.field + [text[0]]);
      ReadEscapedChar(text[0], Escape(text[1..]), s);
      ReadEscaped(text[1..], next);
      assert next.field + text[1..] == s.field + text;
    }
  }

  lemma ReadQuoted(text: string, s: Scan)
    requires s.mode == Plain
    ensures Fold("\"" + Escape(text) + "\"", s) == s.(field := s.field + text, mode := AfterQuote)
  {
    var inside := s.(mode := Quoted);
    FoldConcat("\"", Escape(text) + "\"", s);
    FoldTwo("\"", s);
    FoldConcat(Escape(text), "\"", inside);
    ReadEscaped(text, inside);
    FoldTwo("\"", inside.(field := s.field + text));
    assert "\"" + Escape(text) + "\"" == "\"" + (Escape(text) + "\"");
  }

  lemma ReadPiece(piece: Piece, s: Scan)
    requires SoundPiece(piece) && s.mode != Quoted && (piece.quoted ==> s.mode == Plain)
    ensures Fold(WritePiece(piece), s)
         == s.(field := s.field + PieceText(piece), mode := if piece.quoted then AfterQuote else Plain)
  {
    if piece.quoted { ReadQuoted(piece.text, s); } else { ReadPlain(piece.text, s); }
  }

  lemma SoundRest(cell: Cell)
    requires cell != [] && Sound(cell)
    ensures SoundPiece(cell[0]) && Sound(cell[1..])
    ensures cell[0].quoted && cell[1..] != [] ==> !cell[1..][0].quoted
  {
  }

  /** What reading `cell` from `s` must come to. */
  predicate Gathers(cell: Cell, s: Scan, end: Scan)
  {
    end == s.(field := s.field + Text(cell), mode := end.mode) && end.mode != Quoted
  }

  lemma GatherFirst(cell: Cell, s: Scan, next: Scan, end: Scan)
    requires cell != [] && Gathers(cell[1..], next, end)
    requires next == s.(field := s.field + PieceText(cell[0]), mode := next.mode)
    ensures Gathers(cell, s, end)
  {
    Regroup(s.field, PieceText(cell[0]), Text(cell[1..]));
  }

  /** Reading a written cell gathers its text, whatever pieces were chosen. */
  lemma {:induction false} ReadCell(cell: Cell, s: Scan)
    requires Sound(cell) && s.mode != Quoted && (cell != [] && cell[0].quoted ==> s.mode == Plain)
    ensures Gathers(cell, s, Fold(WriteCell(cell), s))
    decreases |cell|
  {
    if cell == [] {
      assert s.field + Text(cell) == s.field;
    } else {
      var piece, rest := cell[0], cell[1..];
      FoldConcat(WritePiece(piece), WriteCell(rest), s);
      SoundRest(cell);
      ReadPiece(piece, s);
      var next := Fold(WritePiece(piece), s);
      ReadCell(rest, next);
      GatherFirst(cell, s, next, Fold(WriteCell(rest), next));
    }
  }

  lemma ReadCellComma(cell: Cell, more: string, s: Scan)
    requires Sound(cell) && s.mode == Plain && s.field == ""
    ensures Fold(WriteCell(cell) + "," + more, s) == Fold(more, Scan(s.rows, s.row + [Text(cell)], "", Plain))
  {
    var first := WriteCell(cell);
    ReadCell(cell, s);
    assert s.field + Text(cell) == Text(cell);
    FoldConcat(first + ",", more, s);
    FoldConcat(first, ",", s);
    FoldTwo(",", Fold(first, s));
  }

  predicate GathersRow(cells: seq<Cell>, s: Scan, end: Scan)
  {
    end.rows == s.rows && end.mode != Quoted &&
    end.row + [end.field] == s.row + Texts(cells) &&
    |end.row| == |s.row| + |cells| - 1
  }

  lemma GatherRowFirst(cells: seq<Cell>, s: Scan, end: Scan)
    requires |cells| > 1 && GathersRow(cells[1..], Scan(s.rows, s.row + [Text(cells[0])], "", Plain), end)
    ensures GathersRow(cells, s, end)
  {
    assert s.row + Texts(cells) == s.row + [Text(cells[0])] + Texts(cells[1..]);
  }

  lemma {:induction false} ReadCells(cells: seq<Cell>, s: Scan)
    requires SoundCells(cells) && s.mode == Plain && s.field == ""
    ensures GathersRow(cells, s, Fold(WriteCells(cells), s))
    decreases |cells|
  {
    if |cells| == 1 {
      ReadCell(cells[0], s);
      assert s.field + Text(cells[0]) == Text(cells[0]);
      assert Texts(cells) == [Text(cells[0])];
    } else {
      var next := Scan(s.rows, s.row + [Text(cells[0])], "", Plain);
      ReadCellComma(cells[0], WriteCells(cells[1..]), s);
      ReadCells(cells[1..], next);
      GatherRowFirst(cells, s, Fold(WriteCells(cells), s));
    }
  }

  lemma ReadLine(line: Line)
    requires SoundCells(line.cells)
    ensures Fold(WriteCells(line.cells) + Terminator(line.crlf), START)
         == Scan([Texts(line.cells)], [], "", Plain)
  {
    var text, end := WriteCells(line.cells), Terminator(line.crlf);
    ReadCells(line.cells, START);
    FoldConcat(text, end, START);
    var s := Fold(text, START);
    FoldTwo(end, s);
    assert [] + Texts(line.cells) == Texts(line.cells);
    assert [] + [Texts(line.cells)] == [Texts(line.cells)];
  }

  /** Every table, under every sound choice of pieces, quotes, stray returns and terminators, is read back. */
  lemma {:induction false} RoundTrip(lines: seq<Line>)
    requires SoundLines(lines)
    ensures Parse(Write(lines)) == Contents(lines)
    ensures Complete(Write(lines))
  {
    if lines != [] {
      var head := WriteCells(lines[0].cells) + Terminator(lines[0].crlf);
      ReadLine(lines[0]);
      RoundTrip(lines[1..]);
      CompleteThen(head, Write(lines[1..]));
      assert Contents(lines) == [Texts(lines[0].cells)] + Contents(lines[1..]);
    }
  }

  lemma ConcatenationRoundTrip(a: seq<Line>, b: seq<Line>)
    requires SoundLines(a) && SoundLines(b)
    ensures Parse(Write(a) + Write(b)) == Contents(a) + Contents(b)
  {
    RoundTrip(a);
    RoundTrip(b);
    CompleteThen(Write(a), Write(b));
  }

  /** A last record without its terminator survives unless it is one empty field. */
  lemma UnterminatedLastRow(lines: seq<Line>, last: seq<Cell>)
    requires SoundLines(lines) && SoundCells(last)
    ensures Parse(Write(lines) + WriteCells(last))
         == Contents(lines) + if Texts(last) == [""] then [] else [Texts(last)]
  {
    RoundTrip(lines);
    CompleteThen(Write(lines), WriteCells(last));
    ReadCells(last, START);
    var s := Fold(WriteCells(last), START);
    assert [] + Texts(last) == Texts(last);
    assert s.row + [s.field] == Texts(last);
    if s.row == [] { assert Texts(last) == [s.field]; }
  }
}
