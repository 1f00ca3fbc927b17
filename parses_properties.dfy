/** Properties of the readers and the dispatcher of Parses.py: which rows end
    up in the output and in what order, which exceptions abort a load, how the
    four formats agree on the same records, and how the extension is found. */
module ParsesProperties {
  import opened Wrappers
  import opened Builtins
  import opened EmpresaModel
  import opened Parses

  // ---------------------------------------------------------------------------
  // Reference definitions

  /** One row's outcome as the row loop sees it. */
  type Outcome = Result<Record, PyError>

  /** An outcome the loop gets past: a record, or an exception it catches. */
  predicate Tolerated(o: Outcome, caught: set<PyError>)
  {
    o.Success? || o.error in caught
  }

  /** The records of the outcomes that succeed, in order; failures ignored. */
  function Converted(os: seq<Outcome>): seq<Record>
    decreases |os|
  {
    if |os| == 0 then []
    else
      var k := |os| - 1;
      Converted(os[..k]) + (match os[k] case Success(r) => [r] case Failure(_) => [])
  }

  /** The positions of the outcomes that fail, in increasing order. */
  function Rejected(os: seq<Outcome>): seq<nat>
    decreases |os|
  {
    if |os| == 0 then []
    else
      var k := |os| - 1;
      Rejected(os[..k]) + (if os[k].Success? then [] else [k])
  }

  // ---------------------------------------------------------------------------
  // Which rows are kept, and when a load aborts

  /** The outcome of the loop, stated without the loop: it completes exactly
      when every outcome is tolerated; then it holds exactly the records of
      the outcomes that succeed, in order, and logs exactly the others.
      Otherwise the escaping exception is that of the first outcome that is
      not tolerated. */
  lemma {:induction false} FoldOutcome(os: seq<Outcome>, caught: set<PyError>)
    ensures Fold(os, caught).Loaded? <==> forall i :: 0 <= i < |os| ==> Tolerated(os[i], caught)
    ensures Fold(os, caught).Loaded? ==>
              Fold(os, caught) == Loaded(Converted(os), Rejected(os))
    ensures Fold(os, caught).Raised? ==>
              exists k :: 0 <= k < |os|
                && os[k] == Failure(Fold(os, caught).error)
                && Fold(os, caught).error !in caught
                && forall i :: 0 <= i < k ==> Tolerated(os[i], caught)
    decreases |os|
  {
    if |os| > 0 {
      var k := |os| - 1;
      var prefix := os[..k];
      FoldOutcome(prefix, caught);
      assert forall i :: 0 <= i < k ==> prefix[i] == os[i];
      var before := Fold(prefix, caught);
      if before.Raised? {
        var j :| 0 <= j < k
          && prefix[j] == Failure(before.error)
          && before.error !in caught
          && forall i :: 0 <= i < j ==> Tolerated(prefix[i], caught);
        assert !Tolerated(os[j], caught);
      }
    }
  }

  /** The row loop's outcome, row by row: `FoldOutcome` with each row's
      conversion in place of its outcome. */
  lemma LoadOutcome(rows: seq<Row>, labels: Labels, missing: PyError, caught: set<PyError>)
    requires missing != ValueError && missing != TypeError
    ensures Load(rows, labels, missing, caught).Loaded? <==>
              forall i :: 0 <= i < |rows| ==> Tolerated(ConvertRow(rows[i], labels, missing), caught)
    ensures Load(rows, labels, missing, caught).Loaded? ==>
              Load(rows, labels, missing, caught) ==
                Loaded(Converted(Outcomes(rows, labels, missing)), Rejected(Outcomes(rows, labels, missing)))
    ensures Load(rows, labels, missing, caught).Raised? ==>
              exists k :: 0 <= k < |rows|
                && ConvertRow(rows[k], labels, missing) == Failure(Load(rows, labels, missing, caught).error)
                && Load(rows, labels, missing, caught).error !in caught
                && forall i :: 0 <= i < k ==> Tolerated(ConvertRow(rows[i], labels, missing), caught)
  {
    var os := Outcomes(rows, labels, missing);
    FoldOutcome(os, caught);
    assert forall i :: 0 <= i < |rows| ==> os[i] == ConvertRow(rows[i], labels, missing);
  }

  /** Conversion is row by row: the outcomes of two stretches of rows are
      those of the first followed by those of the second. */
  lemma OutcomesAppend(a: seq<Row>, b: seq<Row>, labels: Labels, missing: PyError)
    requires missing != ValueError && missing != TypeError
    ensures Outcomes(a + b, labels, missing) == Outcomes(a, labels, missing) + Outcomes(b, labels, missing)
  {
    MapAppend(a, b, Converter(labels, missing));
  }

  /** The outcomes of the first `n` rows are the first `n` outcomes. */
  lemma OutcomesPrefix(rows: seq<Row>, n: nat, labels: Labels, missing: PyError)
    requires missing != ValueError && missing != TypeError
    requires n <= |rows|
    ensures Outcomes(rows, labels, missing)[..n] == Outcomes(rows[..n], labels, missing)
  {
    MapPrefix(rows, n, Converter(labels, missing));
  }

  lemma MapAppend<A, B>(a: seq<A>, b: seq<A>, f: A -> B)
    ensures Map(a + b, f) == Map(a, f) + Map(b, f)
  {
    forall i | 0 <= i < |a + b|
      ensures Map(a + b, f)[i] == (Map(a, f) + Map(b, f))[i]
    {
      if i < |a| {
        assert (a + b)[i] == a[i];
      } else {
        assert (a + b)[i] == b[i - |a|];
      }
    }
  }

  lemma MapPrefix<A, B>(s: seq<A>, n: nat, f: A -> B)
    requires n <= |s|
    ensures Map(s, f)[..n] == Map(s[..n], f)
  {
  }

  /** Filtering is compositional: the records of two stretches of outcomes
      are those of the first stretch followed by those of the second. */
  lemma {:induction false} ConvertedAppend(a: seq<Outcome>, b: seq<Outcome>)
    ensures Converted(a + b) == Converted(a) + Converted(b)
    decreases |b|
  {
    if |b| == 0 {
      assert a + b == a;
    } else {
      var k := |b| - 1;
      assert (a + b)[..|a + b| - 1] == a + b[..k];
      assert (a + b)[|a + b| - 1] == b[k];
      ConvertedAppend(a, b[..k]);
    }
  }

  /** A skipped row does not stop the load: with well-formed rows around a
      row whose exception is caught, every well-formed row is loaded, in order. */
  lemma SkippedRowDoesNotStopLoad(
    a: seq<Row>, bad: Row, b: seq<Row>, labels: Labels, missing: PyError, caught: set<PyError>)
    requires missing != ValueError && missing != TypeError
    requires forall i :: 0 <= i < |a| ==> ConvertRow(a[i], labels, missing).Success?
    requires forall i :: 0 <= i < |b| ==> ConvertRow(b[i], labels, missing).Success?
    requires ConvertRow(bad, labels, missing).Failure?
    requires ConvertRow(bad, labels, missing).error in caught
    ensures Load(a + [bad] + b, labels, missing, caught) ==
              Loaded(Converted(Outcomes(a, labels, missing)) + Converted(Outcomes(b, labels, missing)),
                     Rejected(Outcomes(a + [bad] + b, labels, missing)))
  {
    var oa, ob := Outcomes(a, labels, missing), Outcomes(b, labels, missing);
    var o := ConvertRow(bad, labels, missing);
    OutcomesAppend(a, [bad], labels, missing);
    OutcomesAppend(a + [bad], b, labels, missing);
    assert Outcomes([bad], labels, missing) == [o];
    assert Outcomes(a + [bad] + b, labels, missing) == oa + [o] + ob;
    FoldAroundSkipped(oa, o, ob, caught);
  }

  lemma FoldAroundSkipped(a: seq<Outcome>, o: Outcome, b: seq<Outcome>, caught: set<PyError>)
    requires forall i :: 0 <= i < |a| ==> a[i].Success?
    requires forall i :: 0 <= i < |b| ==> b[i].Success?
    requires o.Failure? && o.error in caught
    ensures Fold(a + [o] + b, caught) == Loaded(Converted(a) + Converted(b), Rejected(a + [o] + b))
  {
    AllTolerated(a, o, b, caught);
    FoldOutcome(a + [o] + b, caught);
    ConvertedAroundFailure(a, o, b);
  }

  lemma AllTolerated(a: seq<Outcome>, o: Outcome, b: seq<Outcome>, caught: set<PyError>)
    requires forall i :: 0 <= i < |a| ==> a[i].Success?
    requires forall i :: 0 <= i < |b| ==> b[i].Success?
    requires Tolerated(o, caught)
    ensures forall i :: 0 <= i < |a + [o] + b| ==> Tolerated((a + [o] + b)[i], caught)
  {
    var s := a + [o] + b;
    forall i | 0 <= i < |s| ensures Tolerated(s[i], caught) {
      if i < |a| {
        assert s[i] == a[i];
      } else if i > |a| {
        assert s[i] == b[i - |a| - 1];
      }
    }
  }

  lemma ConvertedAroundFailure(a: seq<Outcome>, o: Outcome, b: seq<Outcome>)
    requires o.Failure?
    ensures Converted(a + [o] + b) == Converted(a) + Converted(b)
  {
    assert Converted([o]) == [] by {
      assert [o][..0] == [];
    }
    ConvertedAppend(a, [o]);
    ConvertedAppend(a + [o], b);
  }

  /** A row lacking one of the seven labels is skipped by every reader: it
      raises the reader's missing-label exception (`KeyError`, or
      `AttributeError` for XML), or an earlier `int()` raises `ValueError`;
      both are caught. A numeric `None` cell raises `TypeError`, which not
      every reader catches, so each one here sits after an absent label:
      the absent label is looked up first and decides the exception. */
  lemma RowWithoutLabelIsSkipped(row: Row, labels: Labels, missing: PyError, caught: set<PyError>)
    requires missing != ValueError && missing != TypeError
    requires !HasLabels(row, labels)
    requires labels.receitaAnual in row && row[labels.receitaAnual] == PyNone ==>
               labels.nome !in row
    requires labels.dividaTotal in row && row[labels.dividaTotal] == PyNone ==>
               labels.nome !in row || labels.receitaAnual !in row
    requires labels.prazoPagamento in row && row[labels.prazoPagamento] == PyNone ==>
               labels.nome !in row || labels.receitaAnual !in row || labels.dividaTotal !in row
    requires missing in caught && ValueError in caught
    ensures ConvertRow(row, labels, missing).Failure?
    ensures Tolerated(ConvertRow(row, labels, missing), caught)
  {
  }

  /** The four readers' caught sets admit a missing label and a bad numeral. */
  lemma MissingLabelCaughtByEveryReader()
    ensures CsvMissing in CsvCaught && CsvMissing in JsonCaught && CsvMissing in ParquetCaught
    ensures XmlMissing in XmlCaught
    ensures ValueError in CsvCaught && ValueError in JsonCaught && ValueError in XmlCaught
    ensures ValueError in ParquetCaught
  {
  }

  /** The caught set matters only for the exceptions the outcomes actually hold. */
  lemma {:induction false} FoldDependsOnlyOnRaisedKinds(os: seq<Outcome>, c1: set<PyError>, c2: set<PyError>)
    requires forall i :: 0 <= i < |os| && os[i].Failure? ==> (os[i].error in c1 <==> os[i].error in c2)
    ensures Fold(os, c1) == Fold(os, c2)
    decreases |os|
  {
    if |os| > 0 {
      var k := |os| - 1;
      assert forall i :: 0 <= i < k ==> os[..k][i] == os[i];
      FoldDependsOnlyOnRaisedKinds(os[..k], c1, c2);
    }
  }

  /** The CSV and Parquet readers load the same rows alike unless a row
      raises `TypeError`, the one class Parquet catches and CSV does not. */
  lemma CsvAndParquetAgreeWithoutTypeError(rows: seq<Row>)
    requires forall i :: 0 <= i < |rows| ==> ConvertRow(rows[i], SpacedLabels, CsvMissing) != Failure(TypeError)
    ensures Load(rows, SpacedLabels, CsvMissing, CsvCaught) == Load(rows, SpacedLabels, CsvMissing, ParquetCaught)
  {
    var os := Outcomes(rows, SpacedLabels, CsvMissing);
    assert forall i :: 0 <= i < |os| ==> os[i] == ConvertRow(rows[i], SpacedLabels, CsvMissing);
    FoldDependsOnlyOnRaisedKinds(os, CsvCaught, ParquetCaught);
  }

  /** A `None` reaching `int()` (a short CSV line, a JSON `null`, an empty XML
      element) raises `TypeError`: it aborts a CSV load but Parquet skips it. */
  lemma NoneRevenueAbortsCsvSkipsParquet(rows: seq<Row>, k: nat)
    requires k < |rows|
    requires HasLabels(rows[k], SpacedLabels) && rows[k][SpacedLabels.receitaAnual] == PyNone
    requires forall i :: 0 <= i < |rows| && i != k ==> ConvertRow(rows[i], SpacedLabels, CsvMissing).Success?
    ensures Load(rows, SpacedLabels, CsvMissing, CsvCaught) == Raised(TypeError)
    ensures Load(rows, SpacedLabels, CsvMissing, ParquetCaught) ==
              Loaded(Converted(Outcomes(rows, SpacedLabels, CsvMissing)), Rejected(Outcomes(rows, SpacedLabels, CsvMissing)))
  {
    var os := Outcomes(rows, SpacedLabels, CsvMissing);
    assert forall i :: 0 <= i < |os| ==> os[i] == ConvertRow(rows[i], SpacedLabels, CsvMissing);
    assert os[k] == Failure(TypeError);
    FoldOutcome(os, CsvCaught);
    assert forall i :: 0 <= i < |os| ==> Tolerated(os[i], ParquetCaught);
    FoldOutcome(os, ParquetCaught);
    var o := Fold(os, CsvCaught);
    var j :| 0 <= j < |os| && os[j] == Failure(o.error) && o.error !in CsvCaught;
    assert j == k;
  }

  // ---------------------------------------------------------------------------
  // The JSON reader

  function JsonLinesOf(rows: seq<Row>): seq<JsonLine>
  {
    seq(|rows|, i requires 0 <= i < |rows| => JsonObject(rows[i]))
  }

  /** On lines that all decode to objects the JSON reader is the table
      reader with the spaced labels and the CSV caught set. */
  lemma {:induction false} JsonMatchesTableReader(rows: seq<Row>)
    ensures JsonLoad(JsonLinesOf(rows)).result == Load(rows, SpacedLabels, CsvMissing, JsonCaught)
    decreases |rows|
  {
    if |rows| > 0 {
      var k := |rows| - 1;
      var lines := JsonLinesOf(rows);
      assert lines[..k] == JsonLinesOf(rows[..k]);
      assert lines[k] == JsonObject(rows[k]);
      JsonMatchesTableReader(rows[..k]);
      OutcomesPrefix(rows, k, SpacedLabels, CsvMissing);
      assert Outcomes(rows, SpacedLabels, CsvMissing)[k] == ConvertRow(rows[k], SpacedLabels, CsvMissing);
    }
  }

  /** If the first line does not decode, the warning for it reads an
      unassigned `dados`, and the whole load aborts. */
  lemma JsonFirstLineMalformedAborts(lines: seq<JsonLine>)
    requires |lines| > 0 && lines[0] == JsonMalformed
    ensures ReadJson(Decoded(lines)) == Raised(UnboundLocalError)
  {
    assert lines[..1][..0] == [];
    JsonRaisedPersists(lines, 1);
  }

  /** After the first line, a load still running has assigned `dados`. */
  lemma {:induction false} JsonDadosBoundAfterFirstLine(lines: seq<JsonLine>)
    requires |lines| > 0 && JsonLoad(lines).result.Loaded?
    ensures JsonLoad(lines).dadosBound
    decreases |lines|
  {
    var k := |lines| - 1;
    if k > 0 {
      JsonDadosBoundAfterFirstLine(lines[..k]);
    }
  }

  /** A later line that does not decode is logged and skipped. */
  lemma JsonLaterMalformedLineSkipped(lines: seq<JsonLine>, k: nat)
    requires 0 < k < |lines| && lines[k] == JsonMalformed
    requires JsonLoad(lines[..k]).result.Loaded?
    ensures JsonLoad(lines[..k + 1]).result ==
              Loaded(JsonLoad(lines[..k]).result.empresas, JsonLoad(lines[..k]).result.ignoradas + [k])
  {
    JsonDadosBoundAfterFirstLine(lines[..k]);
    assert lines[..k + 1][..k] == lines[..k];
  }

  // ---------------------------------------------------------------------------
  // The same records in every format

  /** The numeric cell of an encoded record: text (CSV, XML) or a native
      integer (JSON, Parquet). */
  function Cell(n: int, asText: bool): PyValue
  {
    if asText then PyStr(IntToString(n)) else PyInt(n)
  }

  /** A record written out as one row under the given labels. */
  function RowOf(r: Record, labels: Labels, asText: bool): Row
  {
    map[labels.nome := r.nome,
        labels.receitaAnual := Cell(r.receitaAnual, asText),
        labels.dividaTotal := Cell(r.dividaTotal, asText),
        labels.prazoPagamento := Cell(r.prazoPagamento, asText),
        labels.setor := r.setor,
        labels.rating := r.rating,
        labels.noticiasRecentes := r.noticiasRecentes]
  }

  function Encode(recs: seq<Record>, labels: Labels, asText: bool): seq<Row>
  {
    seq(|recs|, i requires 0 <= i < |recs| => RowOf(recs[i], labels, asText))
  }

  /** No two of the seven labels coincide. */
  predicate DistinctLabels(l: Labels)
  {
    && l.nome != l.receitaAnual && l.nome != l.dividaTotal && l.nome != l.prazoPagamento
    && l.nome != l.setor && l.nome != l.rating && l.nome != l.noticiasRecentes
    && l.receitaAnual != l.dividaTotal && l.receitaAnual != l.prazoPagamento && l.receitaAnual != l.setor
    && l.receitaAnual != l.rating && l.receitaAnual != l.noticiasRecentes && l.dividaTotal != l.prazoPagamento
    && l.dividaTotal != l.setor && l.dividaTotal != l.rating && l.dividaTotal != l.noticiasRecentes
    && l.prazoPagamento != l.setor && l.prazoPagamento != l.rating && l.prazoPagamento != l.noticiasRecentes
    && l.setor != l.rating && l.setor != l.noticiasRecentes && l.rating != l.noticiasRecentes
  }

  lemma ReaderLabelsDistinct()
    ensures DistinctLabels(SpacedLabels) && DistinctLabels(XmlLabels)
  {
  }

  /** `int()` reads a numeric cell back as the number written. */
  lemma CellReadsBack(n: int, asText: bool)
    ensures ToInt(Cell(n, asText)) == Success(n)
  {
    ParseIntOfIntToString(n);
  }

  /** Conversion inverts encoding: a record written as a row reads back as itself. */
  lemma EncodedRowConverts(r: Record, labels: Labels, missing: PyError, asText: bool)
    requires missing != ValueError && missing != TypeError
    requires DistinctLabels(labels)
    ensures ConvertRow(RowOf(r, labels, asText), labels, missing) == Success(r)
  {
    var row := RowOf(r, labels, asText);
    CellReadsBack(r.receitaAnual, asText);
    CellReadsBack(r.dividaTotal, asText);
    CellReadsBack(r.prazoPagamento, asText);
    assert HasLabels(row, labels);
    assert row[labels.nome] == r.nome;
    assert row[labels.receitaAnual] == Cell(r.receitaAnual, asText);
    assert row[labels.dividaTotal] == Cell(r.dividaTotal, asText);
    assert row[labels.prazoPagamento] == Cell(r.prazoPagamento, asText);
    assert row[labels.setor] == r.setor;
    assert row[labels.rating] == r.rating;
    assert row[labels.noticiasRecentes] == r.noticiasRecentes;
  }

  lemma EncodedTableLoads(recs: seq<Record>, labels: Labels, missing: PyError, caught: set<PyError>, asText: bool)
    requires missing != ValueError && missing != TypeError
    requires DistinctLabels(labels)
    ensures Load(Encode(recs, labels, asText), labels, missing, caught) == Loaded(recs, [])
  {
    var rows := Encode(recs, labels, asText);
    var os := Outcomes(rows, labels, missing);
    forall i | 0 <= i < |recs| ensures os[i] == Success(recs[i]) {
      EncodedRowConverts(recs[i], labels, missing, asText);
    }
    FoldAllConverted(os, recs, caught);
  }

  /** Outcomes that all succeed load as their records, nothing skipped. */
  lemma {:induction false} FoldAllConverted(os: seq<Outcome>, recs: seq<Record>, caught: set<PyError>)
    requires |os| == |recs|
    requires forall i :: 0 <= i < |os| ==> os[i] == Success(recs[i])
    ensures Fold(os, caught) == Loaded(recs, [])
    decreases |os|
  {
    if |os| > 0 {
      var k := |os| - 1;
      FoldAllConverted(os[..k], recs[..k], caught);
      assert recs[..k] + [recs[k]] == recs;
    }
  }

  /** Names `stem.ext` whose stem has no `.` and no upper-case letter. */
  predicate PlainStem(stem: string)
  {
    forall i :: 0 <= i < |stem| ==> stem[i] != '.' && !('A' <= stem[i] <= 'Z')
  }

  /** The same records, expressed in each of the four formats, load as
      exactly those records, in order, with nothing skipped, whichever of
      the four extensions names the file. */
  lemma FormatsAgree(recs: seq<Record>, stem: string)
    requires PlainStem(stem)
    ensures Carregar(stem + ".csv", Decodings(Decoded(Encode(recs, SpacedLabels, true)), NotFound, NotFound, NotFound))
              == Loaded(recs, [])
    ensures Carregar(stem + ".json", Decodings(NotFound, Decoded(JsonLinesOf(Encode(recs, SpacedLabels, false))), NotFound, NotFound))
              == Loaded(recs, [])
    ensures Carregar(stem + ".xml", Decodings(NotFound, NotFound, Decoded(Encode(recs, XmlLabels, true)), NotFound))
              == Loaded(recs, [])
    ensures Carregar(stem + ".parquet", Decodings(NotFound, NotFound, NotFound, Decoded(Encode(recs, SpacedLabels, false))))
              == Loaded(recs, [])
  {
    ReaderLabelsDistinct();
    CsvLoadsEncoded(recs, stem);
    JsonLoadsEncoded(recs, stem);
    XmlLoadsEncoded(recs, stem);
    ParquetLoadsEncoded(recs, stem);
  }

  lemma CsvLoadsEncoded(recs: seq<Record>, stem: string)
    requires PlainStem(stem)
    ensures Carregar(stem + ".csv", Decodings(Decoded(Encode(recs, SpacedLabels, true)), NotFound, NotFound, NotFound))
              == Loaded(recs, [])
  {
    ReaderLabelsDistinct();
    EncodedTableLoads(recs, SpacedLabels, CsvMissing, CsvCaught, true);
    assert stem + ".csv" == stem + "." + "csv";
    ExtensionOfPlainName(stem, "csv");
  }

  lemma JsonLoadsEncoded(recs: seq<Record>, stem: string)
    requires PlainStem(stem)
    ensures Carregar(stem + ".json", Decodings(NotFound, Decoded(JsonLinesOf(Encode(recs, SpacedLabels, false))), NotFound, NotFound))
              == Loaded(recs, [])
  {
    ReaderLabelsDistinct();
    EncodedTableLoads(recs, SpacedLabels, CsvMissing, JsonCaught, false);
    JsonMatchesTableReader(Encode(recs, SpacedLabels, false));
    assert stem + ".json" == stem + "." + "json";
    ExtensionOfPlainName(stem, "json");
  }

  lemma XmlLoadsEncoded(recs: seq<Record>, stem: string)
    requires PlainStem(stem)
    ensures Carregar(stem + ".xml", Decodings(NotFound, NotFound, Decoded(Encode(recs, XmlLabels, true)), NotFound))
              == Loaded(recs, [])
  {
    ReaderLabelsDistinct();
    EncodedTableLoads(recs, XmlLabels, XmlMissing, XmlCaught, true);
    assert stem + ".xml" == stem + "." + "xml";
    ExtensionOfPlainName(stem, "xml");
  }

  lemma ParquetLoadsEncoded(recs: seq<Record>, stem: string)
    requires PlainStem(stem)
    ensures Carregar(stem + ".parquet", Decodings(NotFound, NotFound, NotFound, Decoded(Encode(recs, SpacedLabels, false))))
              == Loaded(recs, [])
  {
    ParquetExtension(stem);
    ReaderLabelsDistinct();
    EncodedTableLoads(recs, SpacedLabels, CsvMissing, ParquetCaught, false);
  }

  lemma ParquetExtension(stem: string)
    requires PlainStem(stem)
    ensures FormatOf(Extension(stem + ".parquet")) == Some(Parquet)
  {
    assert stem + ".parquet" == stem + "." + "parquet";
    ExtensionOfPlainName(stem, "parquet");
  }

  // ---------------------------------------------------------------------------
  // The dispatcher

  lemma {:induction false} JoinLast(parts: seq<string>, sep: char)
    requires |parts| >= 2
    ensures Join(parts, sep) == Join(parts[..|parts| - 1], sep) + [sep] + parts[|parts| - 1]
    decreases |parts|
  {
    if |parts| > 2 {
      var rest := parts[1..];
      JoinLast(rest, sep);
      assert rest[..|rest| - 1] == parts[..|parts| - 1][1..];
    }
  }

  /** `piece` ends `s`, holds no `sep`, and follows a `sep` unless it is all of `s`. */
  predicate LastPieceOf(s: string, piece: string, sep: char)
  {
    && sep !in piece
    && |piece| <= |s| && piece == s[|s| - |piece|..]
    && (|piece| < |s| ==> s[|s| - |piece| - 1] == sep)
  }

  /** The extension is what follows the last `.` of the lower-cased path:
      it holds no `.`, it ends the path, and the path has a `.` just before
      it unless it is the whole path. */
  lemma ExtensionAfterLastDot(path: string)
    ensures LastPieceOf(Lower(path), Extension(path), '.')
  {
    SplitLastPiece(Lower(path), '.');
  }

  /** The last piece of a split holds no separator and ends the text, right
      after a separator unless it is the whole text. */
  lemma SplitLastPiece(s: string, sep: char)
    ensures LastPieceOf(s, Split(s, sep)[|Split(s, sep)| - 1], sep)
  {
    JoinEndsWithLast(Split(s, sep), sep);
  }

  lemma JoinEndsWithLast(parts: seq<string>, sep: char)
    requires |parts| >= 1
    ensures var s, last := Join(parts, sep), parts[|parts| - 1];
      && |last| <= |s| && last == s[|s| - |last|..]
      && (|parts| == 1 ==> s == last)
      && (|parts| >= 2 ==> |last| < |s| && s[|s| - |last| - 1] == sep)
  {
    if |parts| >= 2 {
      JoinLast(parts, sep);
      var last := parts[|parts| - 1];
      var s := Join(parts[..|parts| - 1], sep) + [sep] + last;
      assert s[|s| - |last|..] == last;
    }
  }

  /** A path without a `.` uses its whole lower-cased text as extension. */
  lemma ExtensionWithoutDot(path: string)
    requires '.' !in path
    ensures Extension(path) == Lower(path)
  {
    var low := Lower(path);
    assert '.' !in low by {
      forall i | 0 <= i < |low| ensures low[i] != '.' {
        assert low[i] == LowerChar(path[i]);
        assert path[i] in path;
      }
    }
    SplitNoSeparator(low, '.');
  }

  lemma ExtensionOfPlainName(stem: string, ext: string)
    requires PlainStem(stem) && PlainStem(ext)
    ensures Extension(stem + "." + ext) == ext
  {
    ExtensionOfDottedName(stem, ext);
    assert Lower(ext) == ext;
  }

  /** The extension of `stem.ext`, neither part holding a `.`, is `ext`
      lower-cased. */
  lemma ExtensionOfDottedName(stem: string, ext: string)
    requires '.' !in stem && '.' !in ext
    ensures Extension(stem + "." + ext) == Lower(ext)
  {
    var path := stem + "." + ext;
    var ls, le := Lower(stem), Lower(ext);
    assert Lower(path) == ls + "." + le by {
      forall i | 0 <= i < |path| ensures Lower(path)[i] == (ls + "." + le)[i] {
        if i < |stem| {
          assert path[i] == stem[i];
        } else if i > |stem| {
          assert path[i] == ext[i - |stem| - 1];
        }
      }
    }
    NoDotAfterLower(stem);
    NoDotAfterLower(ext);
    SplitAtFirst(ls, le, '.');
    SplitNoSeparator(le, '.');
  }

  lemma NoDotAfterLower(s: string)
    requires '.' !in s
    ensures '.' !in Lower(s)
  {
    forall i | 0 <= i < |s| ensures Lower(s)[i] != '.' {
      assert s[i] in s;
    }
  }

  lemma LowerIdempotent(s: string)
    ensures Lower(Lower(s)) == Lower(s)
  {
    var once := Lower(s);
    forall i | 0 <= i < |s| ensures Lower(once)[i] == once[i] {
      assert once[i] == LowerChar(s[i]);
    }
  }

  /** Dispatch ignores case: a path and its lower-cased form load alike. */
  lemma DispatchIgnoresCase(path: string, files: Decodings)
    ensures Carregar(path, files) == Carregar(Lower(path), files)
  {
    ExtensionOfLower(path);
  }

  lemma ExtensionOfLower(path: string)
    ensures Extension(Lower(path)) == Extension(path)
  {
    LowerIdempotent(path);
  }

  /** So `DADOS.CSV` goes to the CSV reader. */
  lemma UpperCaseExtension(path: string)
    requires path == "DADOS.CSV"
    ensures Extension(path) == "csv"
  {
    assert path == "DADOS" + "." + "CSV";
    ExtensionOfDottedName("DADOS", "CSV");
    var low := Lower("CSV");
    assert low[0] == 'c' && low[1] == 's' && low[2] == 'v';
  }

  /** An unsupported extension raises `ValueError` whatever the file holds:
      no reader is consulted. */
  lemma UnsupportedExtensionRaises(path: string, files: Decodings)
    requires FormatOf(Extension(path)).None?
    ensures Carregar(path, files) == Raised(ValueError)
    ensures forall other: Decodings :: Carregar(path, other) == Carregar(path, files)
  {
  }

  /** A missing file raises `FileNotFoundError`, not `ValueError`, for any
      name with one of the four supported extensions. */
  lemma MissingFileRaises(stem: string, ext: string)
    requires PlainStem(stem)
    requires ext in {"csv", "json", "xml", "parquet"}
    ensures Carregar(stem + "." + ext, Decodings(NotFound, NotFound, NotFound, NotFound)) == Raised(FileNotFoundError)
  {
    ExtensionOfPlainName(stem, ext);
  }

  /** A container error is re-raised, even though row errors are skipped. */
  lemma ContainerErrorRaised(e: PyError)
    ensures ReadTable(Undecodable(e), XmlLabels, XmlMissing, XmlCaught) == Raised(e)
    ensures ReadJson(Undecodable(e)) == Raised(e)
  {
  }

  // ---------------------------------------------------------------------------
  // The test fixture

  /** One line of a CSV file with the seven header columns, all cells text. */
  function CsvLine(nome: string, receita: string, divida: string, prazo: string,
                   setor: string, rating: string, noticias: string): Row
  {
    map[SpacedLabels.nome := PyStr(nome),
        SpacedLabels.receitaAnual := PyStr(receita),
        SpacedLabels.dividaTotal := PyStr(divida),
        SpacedLabels.prazoPagamento := PyStr(prazo),
        SpacedLabels.setor := PyStr(setor),
        SpacedLabels.rating := PyStr(rating),
        SpacedLabels.noticiasRecentes := PyStr(noticias)]
  }

  function FixtureLine1(): Row
  {
    CsvLine("Empresa CSV 1", "100000", "50000", "30", "Tecnologia", "A", "Noticia boa")
  }

  function FixtureLine2(): Row
  {
    CsvLine("Empresa CSV 2", "200000", "150000", "60", "Saude", "B", "Noticia ruim")
  }

  const FixtureRecord1: Record :=
    Record(PyStr("Empresa CSV 1"), 100000, 50000, 30, PyStr("Tecnologia"), PyStr("A"), PyStr("Noticia boa"))

  const FixtureRecord2: Record :=
    Record(PyStr("Empresa CSV 2"), 200000, 150000, 60, PyStr("Saude"), PyStr("B"), PyStr("Noticia ruim"))

  lemma FixtureLinesEncode()
    ensures FixtureLine1() == RowOf(FixtureRecord1, SpacedLabels, true)
    ensures FixtureLine2() == RowOf(FixtureRecord2, SpacedLabels, true)
  {
    Numerals();
  }

  /** The two-row CSV fixture loads as its two records, in order, nothing
      skipped: "Empresa CSV 1" with receita_anual 100000, then a company
      whose setor is "Saude". */
  lemma CsvFixtureLoads()
    ensures ReadTable(Decoded([FixtureLine1(), FixtureLine2()]), SpacedLabels, CsvMissing, CsvCaught)
              == Loaded([FixtureRecord1, FixtureRecord2], [])
  {
    FixtureLinesEncode();
    EncodedPairLoads(FixtureRecord1, FixtureRecord2, FixtureLine1(), FixtureLine2());
  }

  lemma EncodedPairLoads(r1: Record, r2: Record, line1: Row, line2: Row)
    requires line1 == RowOf(r1, SpacedLabels, true) && line2 == RowOf(r2, SpacedLabels, true)
    ensures ReadTable(Decoded([line1, line2]), SpacedLabels, CsvMissing, CsvCaught) == Loaded([r1, r2], [])
  {
    assert Encode([r1, r2], SpacedLabels, true) == [line1, line2] by {
      assert [r1, r2][..1] == [r1];
      assert [r1][..0] == [];
    }
    ReaderLabelsDistinct();
    EncodedTableLoads([r1, r2], SpacedLabels, CsvMissing, CsvCaught, true);
  }

  /** The decimal spellings the fixtures use. */
  lemma Numerals()
    ensures IntToString(30) == "30" && IntToString(60) == "60"
    ensures IntToString(50000) == "50000" && IntToString(100000) == "100000"
    ensures IntToString(150000) == "150000" && IntToString(200000) == "200000"
  {
    SmallNumerals();
    Numeral50000();
    Numeral100000();
    Numeral150000();
    Numeral200000();
  }

  lemma SmallNumerals()
    ensures NatToString(30) == "30" && NatToString(60) == "60"
  {
    assert NatToString(3) == "3" && NatToString(6) == "6";
  }

  lemma Numeral50000()
    ensures NatToString(50000) == "50000"
  {
    assert NatToString(5) == "5";
    assert NatToString(50) == "50";
    assert NatToString(500) == "500";
    assert NatToString(5000) == "5000";
  }

  lemma Numeral100000()
    ensures NatToString(100000) == "100000"
  {
    assert NatToString(1) == "1";
    assert NatToString(10) == "10";
    assert NatToString(100) == "100";
    assert NatToString(1000) == "1000";
    assert NatToString(10000) == "10000";
  }

  lemma Numeral150000()
    ensures NatToString(150000) == "150000"
  {
    assert NatToString(1) == "1";
    assert NatToString(15) == "15";
    assert NatToString(150) == "150";
    assert NatToString(1500) == "1500";
    assert NatToString(15000) == "15000";
  }

  lemma Numeral200000()
    ensures NatToString(200000) == "200000"
  {
    assert NatToString(2) == "2";
    assert NatToString(20) == "20";
    assert NatToString(200) == "200";
    assert NatToString(2000) == "2000";
    assert NatToString(20000) == "20000";
  }

  /** A fixture line whose receita is not an integer is skipped and logged
      with its position, and the lines after it still load. */
  lemma NonNumericRevenueSkipped(line1: Row, bad: Row, line2: Row)
    requires line1 == FixtureLine1() && bad == BadRevenueLine() && line2 == FixtureLine2()
    ensures ReadTable(Decoded([line1, bad, line2]), SpacedLabels, CsvMissing, CsvCaught) ==
              Loaded([FixtureRecord1, FixtureRecord2], [1])
  {
    BadRevenueRejected(bad);
    FixtureLinesEncode();
    EncodedPairAroundFailureLoads(FixtureRecord1, FixtureRecord2, line1, bad, line2);
  }

  function BadRevenueLine(): Row
  {
    CsvLine("Empresa Ruim", "abc", "50000", "30", "Varejo", "C", "")
  }

  lemma BadRevenueRejected(bad: Row)
    requires bad == BadRevenueLine()
    ensures ConvertRow(bad, SpacedLabels, CsvMissing) == Failure(ValueError)
  {
    CsvLineCells("Empresa Ruim", "abc", "50000", "30", "Varejo", "C", "");
    ParseIntRejectsNonDigits("abc");
    RevenueRaises(bad, SpacedLabels, CsvMissing, ValueError);
  }

  /** A delimited line carries each of its seven cells under its label. */
  lemma CsvLineCells(nome: string, receita: string, divida: string, prazo: string,
                     setor: string, rating: string, noticias: string)
    ensures HasLabels(CsvLine(nome, receita, divida, prazo, setor, rating, noticias), SpacedLabels)
    ensures CsvLine(nome, receita, divida, prazo, setor, rating, noticias)[SpacedLabels.nome] == PyStr(nome)
    ensures CsvLine(nome, receita, divida, prazo, setor, rating, noticias)[SpacedLabels.receitaAnual] == PyStr(receita)
  {
    ReaderLabelsDistinct();
  }

  /** A revenue cell that `int()` refuses decides the row's exception. */
  lemma RevenueRaises(row: Row, labels: Labels, missing: PyError, e: PyError)
    requires missing != ValueError && missing != TypeError
    requires labels.nome in row && labels.receitaAnual in row
    requires ToInt(row[labels.receitaAnual]) == Failure(e)
    ensures ConvertRow(row, labels, missing) == Failure(e)
  {
  }

  lemma EncodedPairAroundFailureLoads(r1: Record, r2: Record, good1: Row, bad: Row, good2: Row)
    requires good1 == RowOf(r1, SpacedLabels, true) && good2 == RowOf(r2, SpacedLabels, true)
    requires ConvertRow(bad, SpacedLabels, CsvMissing) == Failure(ValueError)
    ensures ReadTable(Decoded([good1, bad, good2]), SpacedLabels, CsvMissing, CsvCaught) == Loaded([r1, r2], [1])
  {
    assert ConvertRow(good1, SpacedLabels, CsvMissing) == Success(r1) &&
           ConvertRow(good2, SpacedLabels, CsvMissing) == Success(r2) by {
      ReaderLabelsDistinct();
      EncodedRowConverts(r1, SpacedLabels, CsvMissing, true);
      EncodedRowConverts(r2, SpacedLabels, CsvMissing, true);
    }
    ThreeRowsLoad(good1, bad, good2, r1, r2, SpacedLabels, CsvMissing, CsvCaught);
  }

  lemma ThreeRowsLoad(good1: Row, bad: Row, good2: Row, r1: Record, r2: Record,
                      labels: Labels, missing: PyError, caught: set<PyError>)
    requires missing != ValueError && missing != TypeError
    requires ConvertRow(good1, labels, missing) == Success(r1)
    requires ConvertRow(bad, labels, missing).Failure? && ConvertRow(bad, labels, missing).error in caught
    requires ConvertRow(good2, labels, missing) == Success(r2)
    ensures Load([good1, bad, good2], labels, missing, caught) == Loaded([r1, r2], [1])
  {
    var os := Outcomes([good1, bad, good2], labels, missing);
    assert os[0] == Success(r1);
    assert os[2] == Success(r2);
    FoldThree(os, r1, r2, caught);
  }

  /** Three outcomes, the middle one a caught failure. */
  lemma FoldThree(os: seq<Outcome>, r1: Record, r2: Record, caught: set<PyError>)
    requires |os| == 3 && os[0] == Success(r1) && os[2] == Success(r2)
    requires os[1].Failure? && os[1].error in caught
    ensures Fold(os, caught) == Loaded([r1, r2], [1])
  {
    assert os[..2][..1][..0] == [];
    assert Fold(os[..2][..1], caught) == Loaded([r1], []);
    assert Fold(os[..2], caught) == Loaded([r1], [1]);
  }
}
