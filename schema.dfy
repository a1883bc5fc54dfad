/** The fixed column layouts of the surface program's `.vert` and `.face`
    files (`VERT_DTYPES`, `FACE_DTYPES`) and the reading of those files the
    way `np.loadtxt(file, skiprows=3, dtype=...)` reads them. */
module Schema {
  import opened Wrappers
  import opened Text

  datatype ColumnType = IntColumn | FloatColumn

  datatype Column = Column(name: string, kind: ColumnType)

  /** `FACE_DTYPES`: five integer columns. */
  const FaceColumns: seq<Column> := [
    Column("i", IntColumn),
    Column("j", IntColumn),
    Column("k", IntColumn),
    Column("face_type", IntColumn),
    Column("face_number", IntColumn)
  ]

  /** `VERT_DTYPES`: position and normal as floats, then three integers. */
  const VertColumns: seq<Column> := [
    Column("x", FloatColumn),
    Column("y", FloatColumn),
    Column("z", FloatColumn),
    Column("nx", FloatColumn),
    Column("ny", FloatColumn),
    Column("nz", FloatColumn),
    Column("vertex_type", IntColumn),
    Column("closest_sphere", IntColumn),
    Column("face_type", IntColumn)
  ]

  /** Number of header lines skipped in both tables. */
  const HeaderLines: nat := 3

  /** Text-to-number conversion, kept abstract: each converter either yields
      a value or rejects the token. `F` stands for the floating-point type. */
  datatype Converters<F> = Converters(toInt: string -> Option<int>, toFloat: string -> Option<F>)

  datatype Field<F> = IntField(n: int) | FloatField(f: F)

  datatype FaceRecord = FaceRecord(i: int, j: int, k: int, faceType: int, faceNumber: int)

  datatype VertexRecord<F> = VertexRecord(
    x: F, y: F, z: F,
    nx: F, ny: F, nz: F,
    vertexType: int, closestSphere: int, faceType: int)

  /** Why one data line could not become a record. */
  datatype Problem =
    | WrongColumnCount(found: nat, expected: nat)
    | BadToken(column: string, token: string)

  datatype Table = VertexTable | FaceTable

  /** A parse failure at a 1-based line number of one of the two files. */
  datatype TableError = TableError(table: Table, line: nat, problem: Problem)

  /** The field a token of a column converts to, if it converts. */
  function Convert<F>(conv: Converters<F>, kind: ColumnType, token: string): (r: Option<Field<F>>)
    ensures r.Some? ==> (r.value.IntField? <==> kind == IntColumn)
  {
    match kind
    case IntColumn =>
      (match conv.toInt(token) case Some(n) => Some(IntField(n)) case None => None)
    case FloatColumn =>
      (match conv.toFloat(token) case Some(f) => Some(FloatField(f)) case None => None)
  }

  /** The tokens of a row all convert under their columns. */
  predicate RowConverts<F>(conv: Converters<F>, columns: seq<Column>, tokens: seq<string>)
    requires |tokens| == |columns|
  {
    forall c :: 0 <= c < |columns| ==> Convert(conv, columns[c].kind, tokens[c]).Some?
  }

  /** Converting the tokens of a row column by column, stopping at the first
      token that does not convert. */
  function ConvertFields<F>(conv: Converters<F>, columns: seq<Column>, tokens: seq<string>)
    : (r: Result<seq<Field<F>>, Problem>)
    requires |tokens| == |columns|
    ensures r.Ok? <==> RowConverts(conv, columns, tokens)
    ensures r.Ok? ==> |r.value| == |columns|
    ensures r.Ok? ==> forall c :: 0 <= c < |columns| ==>
      Convert(conv, columns[c].kind, tokens[c]) == Some(r.value[c])
    ensures r.Err? ==> exists c :: (
      && 0 <= c < |columns|
      && Convert(conv, columns[c].kind, tokens[c]).None?
      && r.error == BadToken(columns[c].name, tokens[c])
      && forall d :: 0 <= d < c ==> Convert(conv, columns[d].kind, tokens[d]).Some?)
  {
    if columns == [] then Ok([])
    else
      match Convert(conv, columns[0].kind, tokens[0])
      case None => Err(BadToken(columns[0].name, tokens[0]))
      case Some(f) =>
        var rest :- ConvertFields(conv, columns[1..], tokens[1..]);
        Ok([f] + rest)
  }

  /** One row of a table: the column count is checked before any token is
      converted. */
  function ConvertRow<F>(conv: Converters<F>, columns: seq<Column>, tokens: seq<string>)
    : (r: Result<seq<Field<F>>, Problem>)
    ensures |tokens| != |columns| ==> r == Err(WrongColumnCount(|tokens|, |columns|))
    ensures |tokens| == |columns| ==> r == ConvertFields(conv, columns, tokens)
  {
    if |tokens| != |columns| then Err(WrongColumnCount(|tokens|, |columns|))
    else ConvertFields(conv, columns, tokens)
  }

  /** A `.face` data line, as tokens. */
  function ParseFace<F>(conv: Converters<F>, tokens: seq<string>): (r: Result<FaceRecord, Problem>)
    ensures r.Ok? <==> |tokens| == 5 && forall c :: 0 <= c < 5 ==> conv.toInt(tokens[c]).Some?
    ensures r.Ok? ==>
      && Some(r.value.i) == conv.toInt(tokens[0])
      && Some(r.value.j) == conv.toInt(tokens[1])
      && Some(r.value.k) == conv.toInt(tokens[2])
      && Some(r.value.faceType) == conv.toInt(tokens[3])
      && Some(r.value.faceNumber) == conv.toInt(tokens[4])
    ensures |tokens| != 5 ==> r == Err(WrongColumnCount(|tokens|, 5))
  {
    var fs :- ConvertRow(conv, FaceColumns, tokens);
    assert forall c :: 0 <= c < 5 ==> FaceColumns[c].kind == IntColumn;
    Ok(FaceRecord(fs[0].n, fs[1].n, fs[2].n, fs[3].n, fs[4].n))
  }

  /** A `.vert` data line, as tokens. */
  function ParseVertex<F>(conv: Converters<F>, tokens: seq<string>): (r: Result<VertexRecord<F>, Problem>)
    ensures r.Ok? <==>
      && |tokens| == 9
      && (forall c :: 0 <= c < 6 ==> conv.toFloat(tokens[c]).Some?)
      && (forall c :: 6 <= c < 9 ==> conv.toInt(tokens[c]).Some?)
    ensures r.Ok? ==>
      && Some(r.value.x) == conv.toFloat(tokens[0])
      && Some(r.value.y) == conv.toFloat(tokens[1])
      && Some(r.value.z) == conv.toFloat(tokens[2])
      && Some(r.value.nx) == conv.toFloat(tokens[3])
      && Some(r.value.ny) == conv.toFloat(tokens[4])
      && Some(r.value.nz) == conv.toFloat(tokens[5])
      && Some(r.value.vertexType) == conv.toInt(tokens[6])
      && Some(r.value.closestSphere) == conv.toInt(tokens[7])
      && Some(r.value.faceType) == conv.toInt(tokens[8])
    ensures |tokens| != 9 ==> r == Err(WrongColumnCount(|tokens|, 9))
  {
    var fs :- ConvertRow(conv, VertColumns, tokens);
    assert forall c :: 0 <= c < 6 ==> VertColumns[c].kind == FloatColumn;
    assert forall c :: 6 <= c < 9 ==> VertColumns[c].kind == IntColumn;
    Ok(VertexRecord(fs[0].f, fs[1].f, fs[2].f, fs[3].f, fs[4].f, fs[5].f,
                    fs[6].n, fs[7].n, fs[8].n))
  }

  /** A data row: its 1-based line number in the file and its tokens. */
  datatype Row = Row(lineNumber: nat, tokens: seq<string>)

  /** The row one tokenised line contributes: none when it has no tokens. */
  function LineRow(tokens: seq<string>, lineNumber: nat): (rows: seq<Row>)
    ensures |rows| <= 1
    ensures rows == [] <==> tokens == []
  {
    if tokens == [] then [] else [Row(lineNumber, tokens)]
  }

  /** The rows of the lines that `tokenize` finds tokens in; the first line
      is line number `first`. The tables use `LineTokens` for `tokenize`. */
  function DataRows(lines: seq<string>, first: nat, tokenize: string -> seq<string>): (rows: seq<Row>)
    ensures |rows| <= |lines|
    ensures forall k :: 0 <= k < |rows| ==> rows[k].tokens != []
  {
    if lines == [] then []
    else LineRow(tokenize(lines[0]), first) + DataRows(lines[1..], first + 1, tokenize)
  }

  /** Parsing the rows one after the other; the first row that fails is
      the error, with its line number. */
  function ParseRows<R>(table: Table, rows: seq<Row>, parse: seq<string> -> Result<R, Problem>)
    : (r: Result<seq<R>, TableError>)
    ensures r.Ok? <==> forall k :: 0 <= k < |rows| ==> parse(rows[k].tokens).Ok?
    ensures r.Ok? ==> |r.value| == |rows|
    ensures r.Ok? ==> forall k :: 0 <= k < |rows| ==> parse(rows[k].tokens) == Ok(r.value[k])
    ensures r.Err? ==> exists k :: (
      && 0 <= k < |rows|
      && parse(rows[k].tokens).Err?
      && r.error == TableError(table, rows[k].lineNumber, parse(rows[k].tokens).error)
      && forall m :: 0 <= m < k ==> parse(rows[m].tokens).Ok?)
  {
    if rows == [] then Ok([])
    else
      match parse(rows[0].tokens)
      case Err(p) => Err(TableError(table, rows[0].lineNumber, p))
      case Ok(x) =>
        var rest :- ParseRows(table, rows[1..], parse);
        Ok([x] + rest)
  }

  /** The lines of a table file that follow the header. */
  function BodyLines(text: string): (lines: seq<string>)
    ensures |ReadLines(text)| >= HeaderLines ==> lines == ReadLines(text)[HeaderLines..]
    ensures |ReadLines(text)| < HeaderLines ==> lines == []
  {
    var all := ReadLines(text);
    if |all| < HeaderLines then [] else all[HeaderLines..]
  }

  /** The data rows of a table file: its body lines, numbered from the
      first line after the header, blank and comment-only lines dropped. */
  function TableRows(text: string): (rows: seq<Row>)
    ensures |rows| <= |BodyLines(text)|
  {
    DataRows(BodyLines(text), HeaderLines + 1, LineTokens)
  }

  /** `np.loadtxt(text, skiprows=3, dtype=...)`: a file of no more than
      the header holds no records; each record comes from one body line. */
  function LoadTable<R>(table: Table, text: string, parse: seq<string> -> Result<R, Problem>)
    : (r: Result<seq<R>, TableError>)
    ensures |ReadLines(text)| <= HeaderLines ==> r == Ok([])
    ensures r.Ok? ==> |r.value| <= |BodyLines(text)|
    ensures r.Err? ==> r.error.table == table
    ensures r.Err? ==> HeaderLines < r.error.line
    ensures r.Ok? <==> forall k :: 0 <= k < |TableRows(text)| ==> parse(TableRows(text)[k].tokens).Ok?
    ensures r.Ok? ==> |r.value| == |TableRows(text)|
    ensures r.Ok? ==> forall k :: 0 <= k < |TableRows(text)| ==> parse(TableRows(text)[k].tokens) == Ok(r.value[k])
  {
    DataRowsLineNumbers(BodyLines(text), HeaderLines + 1, LineTokens);
    ParseRows(table, TableRows(text), parse)
  }

  /** Reading `VERT_DTYPES` records: record k is the vertex parsed from the
      k-th data row of the body. */
  function LoadVertices<F>(conv: Converters<F>, text: string): (r: Result<seq<VertexRecord<F>>, TableError>)
    ensures r.Err? ==> r.error.table == VertexTable
    ensures var rows := TableRows(text);
      r.Ok? <==> forall k :: 0 <= k < |rows| ==> ParseVertex(conv, rows[k].tokens).Ok?
    ensures var rows := TableRows(text);
      r.Ok? ==> |r.value| == |rows| && forall k :: 0 <= k < |rows| ==> ParseVertex(conv, rows[k].tokens) == Ok(r.value[k])
  {
    LoadTable(VertexTable, text, tokens => ParseVertex(conv, tokens))
  }

  /** Reading `FACE_DTYPES` records: record k is the face parsed from the
      k-th data row of the body. */
  function LoadFaces<F>(conv: Converters<F>, text: string): (r: Result<seq<FaceRecord>, TableError>)
    ensures r.Err? ==> r.error.table == FaceTable
    ensures var rows := TableRows(text);
      r.Ok? <==> forall k :: 0 <= k < |rows| ==> ParseFace(conv, rows[k].tokens).Ok?
    ensures var rows := TableRows(text);
      r.Ok? ==> |r.value| == |rows| && forall k :: 0 <= k < |rows| ==> ParseFace(conv, rows[k].tokens) == Ok(r.value[k])
  {
    LoadTable(FaceTable, text, tokens => ParseFace(conv, tokens))
  }

  /** The two record layouts: five integer face columns; six float vertex
      columns (position, then normal) followed by three integers, the last
      of which is the face type, as in the face table. */
  lemma ColumnLayout()
    ensures |FaceColumns| == 5 && |VertColumns| == 9
    ensures forall c :: 0 <= c < 5 ==> FaceColumns[c].kind == IntColumn
    ensures forall c :: 0 <= c < 6 ==> VertColumns[c].kind == FloatColumn
    ensures forall c :: 6 <= c < 9 ==> VertColumns[c].kind == IntColumn
    ensures forall c, d :: 0 <= c < d < 5 ==> FaceColumns[c].name != FaceColumns[d].name
    ensures forall c, d :: 0 <= c < d < 9 ==> VertColumns[c].name != VertColumns[d].name
    ensures VertColumns[8].name == FaceColumns[3].name == "face_type"
  {
  }

  /** When no line is blank, every line is one row, in order. */
  lemma {:induction false} DataRowsOnePerLine(lines: seq<string>, first: nat, tokenize: string -> seq<string>)
    requires forall k :: 0 <= k < |lines| ==> tokenize(lines[k]) != []
    ensures |DataRows(lines, first, tokenize)| == |lines|
    ensures forall k :: 0 <= k < |lines| ==>
      DataRows(lines, first, tokenize)[k] == Row(first + k, tokenize(lines[k]))
  {
    if lines != [] {
      DataRowsOnePerLine(lines[1..], first + 1, tokenize);
    }
  }

  /** Rows keep the numbers of the lines they come from. */
  lemma {:induction false} DataRowsLineNumbers(lines: seq<string>, first: nat, tokenize: string -> seq<string>)
    ensures forall k :: 0 <= k < |DataRows(lines, first, tokenize)| ==>
      first <= DataRows(lines, first, tokenize)[k].lineNumber < first + |lines|
  {
    if lines != [] {
      DataRowsLineNumbers(lines[1..], first + 1, tokenize);
    }
  }

  /** Reading two blocks of lines is reading each, numbering on. */
  lemma {:induction false} DataRowsAppend(a: seq<string>, b: seq<string>, first: nat, tokenize: string -> seq<string>)
    ensures DataRows(a + b, first, tokenize) == DataRows(a, first, tokenize) + DataRows(b, first + |a|, tokenize)
  {
    if a == [] {
      assert a + b == b;
    } else {
      assert (a + b)[0] == a[0];
      assert (a + b)[1..] == a[1..] + b;
      DataRowsAppend(a[1..], b, first + 1, tokenize);
      var head := LineRow(tokenize(a[0]), first);
      assert head + (DataRows(a[1..], first + 1, tokenize) + DataRows(b, first + |a|, tokenize))
          == (head + DataRows(a[1..], first + 1, tokenize)) + DataRows(b, first + |a|, tokenize);
    }
  }

  /** A line without tokens (blank or comment-only) contributes no row, and
      the lines after it keep their numbers. */
  lemma BlankLineSkipped(pre: seq<string>, blank: string, post: seq<string>, first: nat, tokenize: string -> seq<string>)
    requires tokenize(blank) == []
    ensures DataRows(pre + [blank] + post, first, tokenize)
         == DataRows(pre, first, tokenize) + DataRows(post, first + |pre| + 1, tokenize)
  {
    var none := DataRows([blank], first + |pre|, tokenize);
    assert [blank][1..] == [];
    assert none == LineRow(tokenize(blank), first + |pre|) + DataRows([], first + |pre| + 1, tokenize);
    assert none == [];
    DataRowsAppend(pre, [blank], first, tokenize);
    var left := DataRows(pre, first, tokenize);
    assert DataRows(pre + [blank], first, tokenize) == left + none == left;
    DataRowsAppend(pre + [blank], post, first, tokenize);
  }

  /** Every line with tokens is a row, under its own line number. */
  lemma {:induction false} DataRowsHasLine(lines: seq<string>, first: nat, tokenize: string -> seq<string>, k: nat)
    requires k < |lines| && tokenize(lines[k]) != []
    ensures exists m :: (
      && 0 <= m < |DataRows(lines, first, tokenize)|
      && DataRows(lines, first, tokenize)[m] == Row(first + k, tokenize(lines[k])))
  {
    var head := LineRow(tokenize(lines[0]), first);
    var tail := DataRows(lines[1..], first + 1, tokenize);
    assert DataRows(lines, first, tokenize) == head + tail;
    if k == 0 {
      assert DataRows(lines, first, tokenize)[0] == Row(first, tokenize(lines[0]));
    } else {
      DataRowsHasLine(lines[1..], first + 1, tokenize, k - 1);
      var m :| 0 <= m < |tail| && tail[m] == Row(first + 1 + (k - 1), tokenize(lines[1..][k - 1]));
      assert (head + tail)[|head| + m] == tail[m];
    }
  }

  /** One non-blank body line that does not parse makes the whole table
      fail. */
  lemma LoadTableRejectsBadLine<R>(table: Table, text: string, parse: seq<string> -> Result<R, Problem>, k: nat)
    requires k < |BodyLines(text)|
    requires LineTokens(BodyLines(text)[k]) != []
    requires parse(LineTokens(BodyLines(text)[k])).Err?
    ensures LoadTable(table, text, parse).Err?
  {
    DataRowsHasLine(BodyLines(text), HeaderLines + 1, LineTokens, k);
  }

  /** When no line is blank, parsing the rows yields one record per line. */
  lemma ParseRowsPerLine<R>(table: Table, lines: seq<string>, first: nat,
                            tokenize: string -> seq<string>, parse: seq<string> -> Result<R, Problem>)
    requires forall k :: 0 <= k < |lines| ==> tokenize(lines[k]) != []
    requires ParseRows(table, DataRows(lines, first, tokenize), parse).Ok?
    ensures |ParseRows(table, DataRows(lines, first, tokenize), parse).value| == |lines|
    ensures forall k :: 0 <= k < |lines| ==>
      parse(tokenize(lines[k])) == Ok(ParseRows(table, DataRows(lines, first, tokenize), parse).value[k])
  {
    DataRowsOnePerLine(lines, first, tokenize);
  }

  /** The record count of a table whose body has no blank line is its line
      count minus the three header lines, and record `k` comes from body
      line `k`, which is line `k + 4` of the file. */
  lemma TableRecordPerLine<R>(table: Table, text: string, parse: seq<string> -> Result<R, Problem>)
    requires forall k :: 0 <= k < |BodyLines(text)| ==> LineTokens(BodyLines(text)[k]) != []
    requires LoadTable(table, text, parse).Ok?
    ensures |LoadTable(table, text, parse).value| == |BodyLines(text)|
    ensures |ReadLines(text)| >= HeaderLines ==>
      |LoadTable(table, text, parse).value| == |ReadLines(text)| - HeaderLines
    ensures forall k :: 0 <= k < |BodyLines(text)| ==>
      parse(LineTokens(BodyLines(text)[k])) == Ok(LoadTable(table, text, parse).value[k])
  {
    ParseRowsPerLine(table, BodyLines(text), HeaderLines + 1, LineTokens, parse);
  }
}
