/** Row ingestion (Parses.py): four readers that turn already-decoded rows into
    records, and the dispatcher that picks one by file extension.

    Every reader converts a row the same way: look up seven labels in order,
    pass the three numeric ones through `int()`, and build an `Empresa`. A row
    whose conversion raises one of the reader's caught exception classes is
    skipped (and logged); any other exception aborts the whole load. */
module Parses {
  import opened Wrappers
  import opened Builtins
  import opened EmpresaModel

  /** One decoded row: the value under each label it carries. A label the
      row does not carry is absent from the map. For the delimited reader a
      short line gives `None` for its trailing columns; for the markup reader
      an element without text gives `None` and a missing element is absent. */
  type Row = map<string, PyValue>

  /** The seven labels a reader looks up, in the order it looks them up. */
  datatype Labels = Labels(
    nome: string,
    receitaAnual: string,
    dividaTotal: string,
    prazoPagamento: string,
    setor: string,
    rating: string,
    noticiasRecentes: string)

  /** Column and key names of the CSV, JSON and Parquet readers. */
  const SpacedLabels: Labels :=
    Labels("Empresa", "Receita Anual", "Dívida Total", "Prazo de Pagamento (dias)",
           "Setor", "Rating", "Notícias Recentes")

  /** Child element names of the XML reader: underscores, accents kept. */
  const XmlLabels: Labels :=
    Labels("Empresa", "Receita_Anual", "Dívida_Total", "Prazo_de_Pagamento_dias",
           "Setor", "Rating", "Notícias_Recentes")

  /** The exceptions each reader's per-row handler catches. */
  const CsvCaught: set<PyError> := {ValueError, KeyError}
  const JsonCaught: set<PyError> := {ValueError, KeyError}
  const XmlCaught: set<PyError> := {ValueError, AttributeError}
  const ParquetCaught: set<PyError> := {ValueError, TypeError, KeyError}

  /** What looking up an absent label raises: `KeyError` for `row[label]`
      (CSV, JSON, Parquet), `AttributeError` for `row.find(label).text` (XML). */
  const CsvMissing: PyError := KeyError
  const XmlMissing: PyError := AttributeError

  // ---------------------------------------------------------------------------
  // Row conversion

  function Lookup(row: Row, key: string, missing: PyError): Result<PyValue, PyError>
  {
    if key in row then Success(row[key]) else Failure(missing)
  }

  /** `int(row[label])`. */
  function Numeric(row: Row, key: string, missing: PyError): Result<int, PyError>
  {
    var v :- Lookup(row, key, missing);
    ToInt(v)
  }

  predicate HasLabels(row: Row, labels: Labels)
  {
    && labels.nome in row && labels.receitaAnual in row && labels.dividaTotal in row
    && labels.prazoPagamento in row && labels.setor in row && labels.rating in row
    && labels.noticiasRecentes in row
  }

  /** The row carries `key`, and `int()` accepts its value. */
  predicate IntCell(row: Row, key: string)
  {
    key in row && ToInt(row[key]).Success?
  }

  /** Some numeric label of the row holds a value for which `int()` raises `e`. */
  predicate NumericRaises(row: Row, labels: Labels, e: PyError)
  {
    || (labels.receitaAnual in row && ToInt(row[labels.receitaAnual]) == Failure(e))
    || (labels.dividaTotal in row && ToInt(row[labels.dividaTotal]) == Failure(e))
    || (labels.prazoPagamento in row && ToInt(row[labels.prazoPagamento]) == Failure(e))
  }

  /** The `Empresa(...)` call of every reader, arguments evaluated left to
      right, so the first failing lookup or `int()` decides the exception. */
  function ConvertRow(row: Row, labels: Labels, missing: PyError): (r: Result<Record, PyError>)
    requires missing != ValueError && missing != TypeError
    ensures r.Success? <==>
              && HasLabels(row, labels)
              && ToInt(row[labels.receitaAnual]).Success?
              && ToInt(row[labels.dividaTotal]).Success?
              && ToInt(row[labels.prazoPagamento]).Success?
    ensures r.Success? ==>
              r.value == Record(row[labels.nome],
                                ToInt(row[labels.receitaAnual]).value,
                                ToInt(row[labels.dividaTotal]).value,
                                ToInt(row[labels.prazoPagamento]).value,
                                row[labels.setor], row[labels.rating],
                                row[labels.noticiasRecentes])
    ensures r.Failure? ==> r.error in {missing, ValueError, TypeError}
    ensures r.Failure? && r.error == missing ==> !HasLabels(row, labels)
    ensures r.Failure? && r.error != missing ==> NumericRaises(row, labels, r.error)
    // Arguments are evaluated left to right: the first lookup or `int()`
    // that fails decides the exception.
    ensures labels.nome !in row ==> r == Failure(missing)
    ensures labels.nome in row && labels.receitaAnual !in row ==> r == Failure(missing)
    ensures labels.nome in row && labels.receitaAnual in row && ToInt(row[labels.receitaAnual]).Failure? ==>
              r == Failure(ToInt(row[labels.receitaAnual]).error)
    ensures labels.nome in row && IntCell(row, labels.receitaAnual) && labels.dividaTotal !in row ==>
              r == Failure(missing)
    ensures labels.nome in row && IntCell(row, labels.receitaAnual) && labels.dividaTotal in row
              && ToInt(row[labels.dividaTotal]).Failure? ==>
              r == Failure(ToInt(row[labels.dividaTotal]).error)
    ensures labels.nome in row && IntCell(row, labels.receitaAnual) && IntCell(row, labels.dividaTotal)
              && labels.prazoPagamento !in row ==>
              r == Failure(missing)
    ensures labels.nome in row && IntCell(row, labels.receitaAnual) && IntCell(row, labels.dividaTotal)
              && labels.prazoPagamento in row && ToInt(row[labels.prazoPagamento]).Failure? ==>
              r == Failure(ToInt(row[labels.prazoPagamento]).error)
    ensures labels.nome in row && IntCell(row, labels.receitaAnual) && IntCell(row, labels.dividaTotal)
              && IntCell(row, labels.prazoPagamento) && !HasLabels(row, labels) ==>
              r == Failure(missing)
  {
    var nome :- Lookup(row, labels.nome, missing);
    var receita :- Numeric(row, labels.receitaAnual, missing);
    var divida :- Numeric(row, labels.dividaTotal, missing);
    var prazo :- Numeric(row, labels.prazoPagamento, missing);
    var setor :- Lookup(row, labels.setor, missing);
    var rating :- Lookup(row, labels.rating, missing);
    var noticias :- Lookup(row, labels.noticiasRecentes, missing);
    Success(Record(nome, receita, divida, prazo, setor, rating, noticias))
  }

  // ---------------------------------------------------------------------------
  // The row loop shared by the CSV, XML and Parquet readers

  /** The outcome of a load: the records appended, with the positions of the
      rows that were logged and skipped, or the exception that escaped. */
  datatype LoadResult = Loaded(empresas: seq<Record>, ignoradas: seq<nat>) | Raised(error: PyError)

  /** `f` applied to each element of `s`, in order. */
  function Map<A, B>(s: seq<A>, f: A -> B): seq<B>
  {
    seq(|s|, i requires 0 <= i < |s| => f(s[i]))
  }

  /** The `Empresa(...)` call of the loop body, as a function of the row. */
  function Converter(labels: Labels, missing: PyError): Row -> Result<Record, PyError>
    requires missing != ValueError && missing != TypeError
  {
    row => ConvertRow(row, labels, missing)
  }

  /** What the loop body's `Empresa(...)` call gives for each row, in row order. */
  function Outcomes(rows: seq<Row>, labels: Labels, missing: PyError): seq<Result<Record, PyError>>
    requires missing != ValueError && missing != TypeError
  {
    Map(rows, Converter(labels, missing))
  }

  /** One pass of the loop body for row `k` with outcome `o`: the record is
      appended, or a caught exception is logged with the row's position, or
      any other exception escapes. A load that has already stopped stays stopped. */
  function LoopStep(acc: LoadResult, k: nat, o: Result<Record, PyError>, caught: set<PyError>): LoadResult
  {
    match acc
    case Raised(e) => Raised(e)
    case Loaded(rs, skipped) =>
      match o
      case Success(r) => Loaded(rs + [r], skipped)
      case Failure(e) => if e in caught then Loaded(rs, skipped + [k]) else Raised(e)
  }

  /** The loop's meaning over the per-row outcomes: after the outcomes `os`,
      what the list and the log hold, or the exception that stopped it. */
  function Fold(os: seq<Result<Record, PyError>>, caught: set<PyError>): LoadResult
    decreases |os|
  {
    if |os| == 0 then Loaded([], [])
    else
      var k := |os| - 1;
      LoopStep(Fold(os[..k], caught), k, os[k], caught)
  }

  /** The row loop over `rows`. */
  function Load(rows: seq<Row>, labels: Labels, missing: PyError, caught: set<PyError>): LoadResult
    requires missing != ValueError && missing != TypeError
  {
    Fold(Outcomes(rows, labels, missing), caught)
  }

  /** Once an exception escapes, later rows change nothing. */
  lemma {:induction false} RaisedPersists(os: seq<Result<Record, PyError>>, n: nat, caught: set<PyError>)
    requires n <= |os|
    requires Fold(os[..n], caught).Raised?
    ensures Fold(os, caught) == Fold(os[..n], caught)
    decreases |os|
  {
    if n < |os| {
      var k := |os| - 1;
      assert os[..k][..n] == os[..n];
      RaisedPersists(os[..k], n, caught);
    } else {
      assert os[..n] == os;
    }
  }

  /** `for i, linha in enumerate(rows): try: append(Empresa(...)) except caught: log`. */
  method LoadRows(rows: seq<Row>, labels: Labels, missing: PyError, caught: set<PyError>) returns (out: LoadResult)
    requires missing != ValueError && missing != TypeError
    ensures out == Load(rows, labels, missing, caught)
  {
    ghost var os := Outcomes(rows, labels, missing);
    var empresas: seq<Record> := [];
    var ignoradas: seq<nat> := [];
    var i := 0;
    while i < |rows|
      invariant 0 <= i <= |rows|
      invariant Fold(os[..i], caught) == Loaded(empresas, ignoradas)
    {
      assert os[..i + 1][..i] == os[..i];
      assert os[i] == ConvertRow(rows[i], labels, missing);
      match ConvertRow(rows[i], labels, missing) {
        case Success(r) =>
          empresas := empresas + [r];
        case Failure(e) =>
          if e !in caught {
            RaisedPersists(os, i + 1, caught);
            return Raised(e);
          }
          ignoradas := ignoradas + [i];
      }
      i := i + 1;
    }
    assert os[..i] == os;
    return Loaded(empresas, ignoradas);
  }

  // ---------------------------------------------------------------------------
  // Files

  /** What the decoding library makes of a path: no file there, a container
      error it raises (a malformed XML document, a corrupt Parquet file, text
      that is not UTF-8), or the decoded content. */
  datatype FileInput<T> = NotFound | Undecodable(error: PyError) | Decoded(content: T)

  /** A table reader: the container error, if any, escapes (`FileNotFoundError`
      is logged and re-raised); otherwise the row loop runs. */
  function ReadTable(file: FileInput<seq<Row>>, labels: Labels, missing: PyError, caught: set<PyError>): LoadResult
    requires missing != ValueError && missing != TypeError
  {
    match file
    case NotFound => Raised(FileNotFoundError)
    case Undecodable(e) => Raised(e)
    case Decoded(rows) => Load(rows, labels, missing, caught)
  }

  /** `carregar_dados_csv`: `csv.DictReader` rows, `ValueError` and `KeyError` skipped. */
  method CarregarDadosCsv(file: FileInput<seq<Row>>) returns (out: LoadResult)
    ensures out == ReadTable(file, SpacedLabels, CsvMissing, CsvCaught)
  {
    match file {
      case NotFound => out := Raised(FileNotFoundError);
      case Undecodable(e) => out := Raised(e);
      case Decoded(rows) => out := LoadRows(rows, SpacedLabels, CsvMissing, CsvCaught);
    }
  }

  /** `carregar_dados_xml`: the `row` children of the root, `ValueError` and
      `AttributeError` skipped; `ET.ParseError` is logged and re-raised. */
  method CarregarDadosXml(file: FileInput<seq<Row>>) returns (out: LoadResult)
    ensures out == ReadTable(file, XmlLabels, XmlMissing, XmlCaught)
  {
    match file {
      case NotFound => out := Raised(FileNotFoundError);
      case Undecodable(e) => out := Raised(e);
      case Decoded(rows) => out := LoadRows(rows, XmlLabels, XmlMissing, XmlCaught);
    }
  }

  /** `carregar_dados_parquet`: `iterrows()` rows, `ValueError`, `TypeError`
      and `KeyError` skipped. */
  method CarregarDadosParquet(file: FileInput<seq<Row>>) returns (out: LoadResult)
    ensures out == ReadTable(file, SpacedLabels, CsvMissing, ParquetCaught)
  {
    match file {
      case NotFound => out := Raised(FileNotFoundError);
      case Undecodable(e) => out := Raised(e);
      case Decoded(rows) => out := LoadRows(rows, SpacedLabels, CsvMissing, ParquetCaught);
    }
  }

  // ---------------------------------------------------------------------------
  // The JSON Lines reader

  /** What `json.loads` makes of one line: an object, some other JSON value
      (a list, a string, a number, `null`), or nothing (`JSONDecodeError`,
      a `ValueError`; a blank line is one too). */
  datatype JsonLine = JsonObject(row: Row) | JsonNonObject | JsonMalformed

  /** The JSON loop's state: the load so far, and whether the local `dados`
      has been assigned yet. */
  datatype JsonState = JsonState(result: LoadResult, dadosBound: bool)

  /** One line of the JSON loop. Decoding assigns `dados`; an object then
      goes through the table loop's body with the JSON caught set, while
      indexing a non-object raises `TypeError`, which is not caught. When decoding
      fails, the `ValueError` handler formats `dados` into its warning: if no
      line has been decoded yet, that raises `UnboundLocalError` from inside
      the handler and the load aborts; otherwise the line is skipped. */
  function JsonStep(st: JsonState, k: nat, line: JsonLine): JsonState
    requires st.result.Loaded?
  {
    var rs := st.result.empresas;
    var skipped := st.result.ignoradas;
    match line
    case JsonMalformed =>
      if st.dadosBound then JsonState(Loaded(rs, skipped + [k]), true)
      else JsonState(Raised(UnboundLocalError), false)
    case JsonNonObject => JsonState(Raised(TypeError), true)
    case JsonObject(row) => JsonState(LoopStep(st.result, k, ConvertRow(row, SpacedLabels, CsvMissing), JsonCaught), true)
  }

  /** The JSON loop's meaning over the lines `lines`. */
  function JsonLoad(lines: seq<JsonLine>): JsonState
    decreases |lines|
  {
    if |lines| == 0 then JsonState(Loaded([], []), false)
    else
      var k := |lines| - 1;
      var prev := JsonLoad(lines[..k]);
      if prev.result.Raised? then prev else JsonStep(prev, k, lines[k])
  }

  lemma {:induction false} JsonRaisedPersists(lines: seq<JsonLine>, n: nat)
    requires n <= |lines|
    requires JsonLoad(lines[..n]).result.Raised?
    ensures JsonLoad(lines) == JsonLoad(lines[..n])
    decreases |lines|
  {
    if n < |lines| {
      var k := |lines| - 1;
      assert lines[..k][..n] == lines[..n];
      JsonRaisedPersists(lines[..k], n);
    } else {
      assert lines[..n] == lines;
    }
  }

  function ReadJson(file: FileInput<seq<JsonLine>>): LoadResult
  {
    match file
    case NotFound => Raised(FileNotFoundError)
    case Undecodable(e) => Raised(e)
    case Decoded(lines) => JsonLoad(lines).result
  }

  /** `carregar_dados_json`: one `json.loads` per line, `ValueError` and
      `KeyError` skipped, with the handler's use of `dados` modelled. */
  method CarregarDadosJson(file: FileInput<seq<JsonLine>>) returns (out: LoadResult)
    ensures out == ReadJson(file)
  {
    match file {
      case NotFound => return Raised(FileNotFoundError);
      case Undecodable(e) => return Raised(e);
      case Decoded(lines) =>
        var empresas: seq<Record> := [];
        var ignoradas: seq<nat> := [];
        var dadosBound := false;
        var i := 0;
        while i < |lines|
          invariant 0 <= i <= |lines|
          invariant JsonLoad(lines[..i]) == JsonState(Loaded(empresas, ignoradas), dadosBound)
        {
          assert lines[..i + 1][..i] == lines[..i];
          match lines[i] {
            case JsonMalformed =>
              if !dadosBound {
                JsonRaisedPersists(lines, i + 1);
                return Raised(UnboundLocalError);
              }
              ignoradas := ignoradas + [i];
            case JsonNonObject =>
              JsonRaisedPersists(lines, i + 1);
              return Raised(TypeError);
            case JsonObject(row) =>
              dadosBound := true;
              match ConvertRow(row, SpacedLabels, CsvMissing) {
                case Success(r) =>
                  empresas := empresas + [r];
                case Failure(e) =>
                  if e !in JsonCaught {
                    JsonRaisedPersists(lines, i + 1);
                    return Raised(e);
                  }
                  ignoradas := ignoradas + [i];
              }
          }
          i := i + 1;
        }
        assert lines[..i] == lines;
        return Loaded(empresas, ignoradas);
    }
  }

  // ---------------------------------------------------------------------------
  // The dispatcher

  /** `caminho.lower().split('.')[-1]`. */
  function Extension(path: string): string
  {
    var parts := Split(Lower(path), '.');
    parts[|parts| - 1]
  }

  datatype Format = Csv | Json | Xml | Parquet

  function FormatOf(ext: string): Option<Format>
  {
    if ext == "csv" then Some(Csv)
    else if ext == "json" then Some(Json)
    else if ext == "xml" then Some(Xml)
    else if ext == "parquet" then Some(Parquet)
    else None
  }

  /** What each decoding library would make of one path. */
  datatype Decodings = Decodings(
    csv: FileInput<seq<Row>>,
    json: FileInput<seq<JsonLine>>,
    xml: FileInput<seq<Row>>,
    parquet: FileInput<seq<Row>>)

  /** The dispatcher's meaning: the outcome of the reader the extension
      selects. */
  function Carregar(path: string, files: Decodings): LoadResult
  {
    Ler(FormatOf(Extension(path)), files)
  }

  /** The selected reader's outcome, or `ValueError` for an unsupported
      extension. */
  function Ler(format: Option<Format>, files: Decodings): LoadResult
  {
    match format
    case None => Raised(ValueError)
    case Some(Csv) => ReadTable(files.csv, SpacedLabels, CsvMissing, CsvCaught)
    case Some(Json) => ReadJson(files.json)
    case Some(Xml) => ReadTable(files.xml, XmlLabels, XmlMissing, XmlCaught)
    case Some(Parquet) => ReadTable(files.parquet, SpacedLabels, CsvMissing, ParquetCaught)
  }

  /** `carregar_dados_de_arquivo`. `debug` only decides whether an
      informational line is logged, so it does not affect the outcome. */
  method CarregarDadosDeArquivo(path: string, debug: bool, files: Decodings) returns (out: LoadResult)
    ensures out == Carregar(path, files)
  {
    var extensao := Extension(path);
    if extensao == "csv" {
      out := CarregarDadosCsv(files.csv);
    } else if extensao == "json" {
      out := CarregarDadosJson(files.json);
    } else if extensao == "xml" {
      out := CarregarDadosXml(files.xml);
    } else if extensao == "parquet" {
      out := CarregarDadosParquet(files.parquet);
    } else {
      out := Raised(ValueError);
    }
  }
}
