/** Properties of the service in main.py: which overrides a simulation
    accepts, what the copy then holds, when the endpoints answer 404 or 400,
    the details endpoint on the tests' data, and two concrete overrides. */
module ApiProperties {
  import opened Wrappers
  import opened Builtins
  import opened EmpresaModel
  import opened Parses
  import opened ParsesProperties
  import opened Api

  // ---------------------------------------------------------------------------
  // Which overrides are accepted

  /** An override the loop gets past on a copy of `r`: it names an attribute
      and the attribute's class converts its value. */
  predicate Accepted(r: Record, p: (string, PyValue))
  {
    && FieldNamed(p.0).Some?
    && Convert(FieldType(r, FieldNamed(p.0).value), p.1).Success?
  }

  /** The refusal an override that is not accepted produces. */
  function Refusal(p: (string, PyValue)): SimError
  {
    if FieldNamed(p.0).None? then UnknownField(p.0) else InvalidValue(p.0, p.1)
  }

  /** Overrides never change an attribute's class, so whether an override is
      accepted is decided by the original record: the batch goes through
      exactly when every override is accepted on the original, and otherwise
      fails with the refusal of the first one that is not. */
  lemma {:induction false} AplicarOutcome(r: Record, alteracoes: seq<(string, PyValue)>)
    ensures Aplicar(r, alteracoes).Success? <==> forall k :: 0 <= k < |alteracoes| ==> Accepted(r, alteracoes[k])
    ensures Aplicar(r, alteracoes).Success? ==> forall f :: FieldType(Aplicar(r, alteracoes).value, f) == FieldType(r, f)
    ensures Aplicar(r, alteracoes).Failure? ==>
              exists k :: 0 <= k < |alteracoes| && !Accepted(r, alteracoes[k])
                && (forall j :: 0 <= j < k ==> Accepted(r, alteracoes[j]))
                && Aplicar(r, alteracoes).error == Refusal(alteracoes[k])
    decreases |alteracoes|
  {
    if |alteracoes| > 0 {
      var rest := alteracoes[1..];
      var st := Step(r, alteracoes[0].0, alteracoes[0].1);
      if st.Success? {
        var s := st.value;
        AplicarOutcome(s, rest);
        AcceptedOnCopy(r, s, alteracoes);
        if Aplicar(s, rest).Failure? {
          var k :| 0 <= k < |rest| && !Accepted(s, rest[k])
            && (forall j :: 0 <= j < k ==> Accepted(s, rest[j]))
            && Aplicar(s, rest).error == Refusal(rest[k]);
          assert alteracoes[k + 1] == rest[k];
          assert forall j :: 0 < j < k + 1 ==> alteracoes[j] == rest[j - 1];
        }
      } else {
        assert !Accepted(r, alteracoes[0]);
      }
    }
  }

  /** After an accepted first override, the copy accepts exactly what the
      original accepts, so the rest of the batch can be judged on either. */
  lemma AcceptedOnCopy(r: Record, s: Record, alteracoes: seq<(string, PyValue)>)
    requires |alteracoes| > 0
    requires Step(r, alteracoes[0].0, alteracoes[0].1) == Success(s)
    ensures Accepted(r, alteracoes[0])
    ensures forall k :: 0 <= k < |alteracoes| - 1 ==>
              alteracoes[1..][k] == alteracoes[k + 1] && (Accepted(s, alteracoes[1..][k]) <==> Accepted(r, alteracoes[k + 1]))
    ensures (forall k :: 0 <= k < |alteracoes| ==> Accepted(r, alteracoes[k])) <==>
              (forall k :: 0 <= k < |alteracoes| - 1 ==> Accepted(s, alteracoes[1..][k]))
  {
    var rest := alteracoes[1..];
    forall k | 0 <= k < |rest|
      ensures rest[k] == alteracoes[k + 1] && (Accepted(s, rest[k]) <==> Accepted(r, alteracoes[k + 1]))
    {
      AcceptedByTypes(r, s, rest[k]);
    }
    forall k | 0 < k < |alteracoes| ensures alteracoes[k] == rest[k - 1] {
    }
  }

  /** Acceptance looks only at the attributes' classes. */
  lemma AcceptedByTypes(r: Record, s: Record, p: (string, PyValue))
    requires forall f :: FieldType(s, f) == FieldType(r, f)
    ensures Accepted(s, p) <==> Accepted(r, p)
  {
    if FieldNamed(p.0).Some? {
      assert FieldType(s, FieldNamed(p.0).value) == FieldType(r, FieldNamed(p.0).value);
    }
  }

  /** Applying two batches is applying their concatenation. */
  lemma {:induction false} AplicarAppend(r: Record, a: seq<(string, PyValue)>, b: seq<(string, PyValue)>)
    ensures Aplicar(r, a + b) ==
              match Aplicar(r, a)
              case Failure(e) => Failure(e)
              case Success(s) => Aplicar(s, b)
    decreases |a|
  {
    if |a| == 0 {
      assert a + b == b;
    } else {
      assert (a + b)[0] == a[0];
      assert (a + b)[1..] == a[1..] + b;
      var st := Step(r, a[0].0, a[0].1);
      if st.Success? {
        AplicarAppend(st.value, a[1..], b);
      }
    }
  }

  // ---------------------------------------------------------------------------
  // What the copy holds

  /** An attribute no override names keeps the original's value. */
  lemma {:induction false} UnnamedFieldsKept(r: Record, alteracoes: seq<(string, PyValue)>, f: Field)
    requires Aplicar(r, alteracoes).Success?
    requires forall k :: 0 <= k < |alteracoes| ==> alteracoes[k].0 != AttrName(f)
    ensures Get(Aplicar(r, alteracoes).value, f) == Get(r, f)
    decreases |alteracoes|
  {
    if |alteracoes| > 0 {
      var rest := alteracoes[1..];
      var s := Step(r, alteracoes[0].0, alteracoes[0].1).value;
      assert forall k :: 0 <= k < |rest| ==> rest[k] == alteracoes[k + 1];
      UnnamedFieldsKept(s, rest, f);
    }
  }

  /** With no overrides the copy equals the original in all seven attributes. */
  lemma EmptyOverridesCopyEqualsOriginal(r: Record)
    ensures Aplicar(r, []).Success?
    ensures forall f :: Get(Aplicar(r, []).value, f) == Get(r, f)
  {
  }

  /** The last override naming an attribute decides its value: the override's
      value converted to the attribute's original class. */
  lemma {:induction false} NamedFieldConverted(r: Record, alteracoes: seq<(string, PyValue)>, k: nat, f: Field)
    requires Aplicar(r, alteracoes).Success?
    requires k < |alteracoes| && alteracoes[k].0 == AttrName(f)
    requires forall j :: k < j < |alteracoes| ==> alteracoes[j].0 != AttrName(f)
    ensures Convert(FieldType(r, f), alteracoes[k].1).Success?
    ensures Get(Aplicar(r, alteracoes).value, f) == Convert(FieldType(r, f), alteracoes[k].1).value
    decreases |alteracoes|
  {
    var rest := alteracoes[1..];
    var s := Step(r, alteracoes[0].0, alteracoes[0].1).value;
    assert forall j :: 0 <= j < |rest| ==> rest[j] == alteracoes[j + 1];
    FieldNamedAttrName(f);
    if k == 0 {
      UnnamedFieldsKept(s, rest, f);
    } else {
      NamedFieldConverted(s, rest, k - 1, f);
    }
  }

  /** Overrides of two different attributes can be swapped: the batch goes
      through in one order exactly when it does in the other, with the same
      copy. */
  lemma DistinctOverridesCommute(
    r: Record, a: seq<(string, PyValue)>, p: (string, PyValue), q: (string, PyValue), b: seq<(string, PyValue)>)
    requires p.0 != q.0
    ensures Aplicar(r, a + [p, q] + b).Success? <==> Aplicar(r, a + [q, p] + b).Success?
    ensures Aplicar(r, a + [p, q] + b).Success? ==> Aplicar(r, a + [p, q] + b) == Aplicar(r, a + [q, p] + b)
  {
    assert a + [p, q] + b == a + ([p, q] + b);
    assert a + [q, p] + b == a + ([q, p] + b);
    AplicarAppend(r, a, [p, q] + b);
    AplicarAppend(r, a, [q, p] + b);
    if Aplicar(r, a).Success? {
      var s := Aplicar(r, a).value;
      AplicarAppend(s, [p, q], b);
      AplicarAppend(s, [q, p], b);
      PairCommutes(s, p, q);
    }
  }

  lemma PairCommutes(s: Record, p: (string, PyValue), q: (string, PyValue))
    requires p.0 != q.0
    ensures Aplicar(s, [p, q]).Success? <==> Aplicar(s, [q, p]).Success?
    ensures Aplicar(s, [p, q]).Success? ==> Aplicar(s, [p, q]) == Aplicar(s, [q, p])
  {
    AplicarOutcome(s, [p, q]);
    AplicarOutcome(s, [q, p]);
    if Aplicar(s, [p, q]).Success? {
      assert Accepted(s, p) && Accepted(s, q) by {
        assert [p, q][0] == p && [p, q][1] == q;
      }
      var fp, fq := FieldNamed(p.0).value, FieldNamed(q.0).value;
      var vp := Convert(FieldType(s, fp), p.1).value;
      var vq := Convert(FieldType(s, fq), q.1).value;
      assert [p, q][1..] == [q] && [q, p][1..] == [p];
      assert [q][1..] == [] && [p][1..] == [];
      var sp := Set(s, fp, vp);
      var sq := Set(s, fq, vq);
      assert Step(s, p.0, p.1) == Success(sp);
      assert Step(s, q.0, q.1) == Success(sq);
      assert FieldType(sp, fq) == FieldType(s, fq) && FieldType(sq, fp) == FieldType(s, fp);
      assert Step(sp, q.0, q.1) == Success(Set(sp, fq, vq));
      assert Step(sq, p.0, p.1) == Success(Set(sq, fp, vp));
      assert Aplicar(s, [p, q]) == Aplicar(sp, [q]) == Success(Set(sp, fq, vq));
      assert Aplicar(s, [q, p]) == Aplicar(sq, [p]) == Success(Set(sq, fp, vp));
      SetCommutes(s, fp, vp, fq, vq);
    }
  }

  // ---------------------------------------------------------------------------
  // The simulation endpoint

  /** An override whose value its attribute's class rejects (after the
      earlier ones were accepted) gives a 400 naming that field, and the
      generator is never consulted. */
  lemma RefusedValueGives400(
    rs: seq<Record>, nome: string, alteracoes: seq<(string, PyValue)>, gerar: Gerador, k: nat)
    requires FindFirst(rs, nome).Some?
    requires k < |alteracoes|
    requires forall j :: 0 <= j < k ==> Accepted(rs[FindFirst(rs, nome).value], alteracoes[j])
    requires FieldNamed(alteracoes[k].0).Some? && !Accepted(rs[FindFirst(rs, nome).value], alteracoes[k])
    ensures SimulacaoDe(rs, nome, alteracoes, gerar) == HttpError(400, ValorInvalido(alteracoes[k].0, alteracoes[k].1))
    ensures forall other: Gerador :: SimulacaoDe(rs, nome, alteracoes, other) == SimulacaoDe(rs, nome, alteracoes, gerar)
  {
    var r := rs[FindFirst(rs, nome).value];
    AplicarOutcome(r, alteracoes);
    var a := Aplicar(r, alteracoes);
    var i :| 0 <= i < |alteracoes| && !Accepted(r, alteracoes[i])
      && (forall j :: 0 <= j < i ==> Accepted(r, alteracoes[j]))
      && a.error == Refusal(alteracoes[i]);
    assert i == k;
  }

  /** A non-integer debt override: `"abc"` for `divida_total`. */
  lemma NonIntegerDebtGives400(rs: seq<Record>, nome: string, gerar: Gerador, abc: string)
    requires FindFirst(rs, nome).Some?
    requires abc == "abc"
    ensures SimulacaoDe(rs, nome, [("divida_total", PyStr(abc))], gerar) ==
              HttpError(400, ValorInvalido("divida_total", PyStr(abc)))
  {
    ParseIntRejectsNonDigits(abc);
    NonNumeralDebtGives400(rs, nome, gerar, abc);
  }

  /** Text that `int()` refuses, sent for `divida_total`, gives a 400 naming
      the field and the text. */
  lemma NonNumeralDebtGives400(rs: seq<Record>, nome: string, gerar: Gerador, s: string)
    requires FindFirst(rs, nome).Some?
    requires ParseInt(s) == None
    ensures SimulacaoDe(rs, nome, [("divida_total", PyStr(s))], gerar) ==
              HttpError(400, ValorInvalido("divida_total", PyStr(s)))
  {
    assert FieldNamed("divida_total") == Some(DividaTotal);
    RefusedValueGives400(rs, nome, [("divida_total", PyStr(s))], gerar, 0);
  }

  /** A name that is not an attribute reaches the missing `logging` and the
      request fails with `NameError` instead of being skipped. */
  lemma UnknownFieldEscapes(rs: seq<Record>, nome: string, campo: string, valor: PyValue, gerar: Gerador)
    requires FindFirst(rs, nome).Some?
    requires forall f :: AttrName(f) != campo
    ensures SimulacaoDe(rs, nome, [(campo, valor)], gerar) == Unhandled(NameError)
  {
  }

  /** A successful simulation answers with the overrides exactly as they
      were sent, not their converted values, and with the analysis of a copy
      that differs from the original only in the attributes they name. */
  lemma SimulationEchoesOverrides(rs: seq<Record>, nome: string, alteracoes: seq<(string, PyValue)>, gerar: Gerador)
    requires SimulacaoDe(rs, nome, alteracoes, gerar).Ok?
    ensures SimulacaoDe(rs, nome, alteracoes, gerar).body.cenarioSimulado == alteracoes
    ensures SimulacaoDe(rs, nome, alteracoes, gerar).body.empresa == nome
    ensures var r := rs[FindFirst(rs, nome).value];
      && Aplicar(r, alteracoes).Success?
      && gerar(Aplicar(r, alteracoes).value) == Success(SimulacaoDe(rs, nome, alteracoes, gerar).body.analiseSimulada)
      && forall f :: (forall k :: 0 <= k < |alteracoes| ==> alteracoes[k].0 != AttrName(f)) ==>
           Get(Aplicar(r, alteracoes).value, f) == Get(r, f)
  {
    var r := rs[FindFirst(rs, nome).value];
    forall f | forall k :: 0 <= k < |alteracoes| ==> alteracoes[k].0 != AttrName(f)
      ensures Get(Aplicar(r, alteracoes).value, f) == Get(r, f)
    {
      UnnamedFieldsKept(r, alteracoes, f);
    }
  }

  /** With no overrides the simulation analyses the found record itself: it
      succeeds exactly when the plain analysis does, with the same text. */
  lemma EmptySimulationIsPlainAnalysis(rs: seq<Record>, nome: string, gerar: Gerador)
    requires FindFirst(rs, nome).Some?
    ensures SimulacaoDe(rs, nome, [], gerar).Ok? <==> AnaliseDe(rs, nome, gerar).Ok?
    ensures SimulacaoDe(rs, nome, [], gerar).Ok? ==>
              SimulacaoDe(rs, nome, [], gerar).body.analiseSimulada == AnaliseDe(rs, nome, gerar).body.analiseDeCredito
  {
  }

  /** Overrides the record's declared classes accept always go through: an
      integer or an integer numeral for a numeric attribute, anything for a
      text attribute that holds a `str`. */
  lemma {:induction false} WellTypedOverridesApply(r: Record, alteracoes: seq<(string, PyValue)>)
    requires WellTyped(r)
    requires forall k :: 0 <= k < |alteracoes| ==> FieldNamed(alteracoes[k].0).Some?
    requires forall k :: 0 <= k < |alteracoes| && IsNumeric(FieldNamed(alteracoes[k].0).value) ==>
               ToInt(alteracoes[k].1).Success?
    ensures Aplicar(r, alteracoes).Success?
  {
    forall k | 0 <= k < |alteracoes| ensures Accepted(r, alteracoes[k]) {
      DeclaredTypes(r, FieldNamed(alteracoes[k].0).value);
    }
    AplicarOutcome(r, alteracoes);
  }

  // ---------------------------------------------------------------------------
  // Lookup

  /** Every name the listing returns can be looked up, and the lookup finds
      that record or an earlier one with the same name. */
  lemma ListedNamesResolve(rs: seq<Record>, i: nat, nome: string)
    requires i < |rs| && rs[i].nome == PyStr(nome)
    ensures ListarNomes(rs)[i] == PyStr(nome)
    ensures DetalhesDe(rs, nome).Ok?
    ensures FindFirst(rs, nome).Some? && FindFirst(rs, nome).value <= i
  {
  }

  /** Lookup by a name no record carries answers 404 from every endpoint. */
  lemma UnknownNameIs404(rs: seq<Record>, nome: string, alteracoes: seq<(string, PyValue)>, gerar: Gerador)
    requires forall j :: 0 <= j < |rs| ==> rs[j].nome != PyStr(nome)
    ensures DetalhesDe(rs, nome) == HttpError(404, NaoEncontrada)
    ensures AnaliseDe(rs, nome, gerar) == HttpError(404, NaoEncontrada)
    ensures SimulacaoDe(rs, nome, alteracoes, gerar) == HttpError(404, NaoEncontradaSimulacao)
  {
  }

  // ---------------------------------------------------------------------------
  // Scenarios

  function MockSucesso(): Record
  {
    Record(PyStr("Empresa Teste Sucesso"), 100000, 5000, 30, PyStr("Tecnologia"), PyStr("A"), PyStr("Tudo certo."))
  }

  /** The details endpoint on the list the tests store in the application
      state: the stored company is returned with its name and rating "A";
      "Empresa Fantasma", asked for while that list is still stored, gives 404. */
  lemma DetailsEndpointScenarios()
    ensures DetalhesDe([MockSucesso()], "Empresa Teste Sucesso") == Ok(Detalhes(MockSucesso()))
    ensures MockSucesso().rating == PyStr("A")
    ensures DetalhesDe([MockSucesso()], "Empresa Fantasma") == HttpError(404, NaoEncontrada)
  {
    var fantasma := "Empresa Fantasma";
    assert MockSucesso().nome != PyStr(fantasma) by {
      assert |"Empresa Teste Sucesso"| != |fantasma|;
    }
    UnknownNameIs404([MockSucesso()], fantasma, [], r => Success(""));
  }

  function Acme(): Record
  {
    Record(PyStr("Acme"), 100000, 50000, 30, PyStr("Tecnologia"), PyStr("A"), PyStr("ok"))
  }

  function AcmeLine(): Row
  {
    CsvLine("Acme", "100000", "50000", "30", "Tecnologia", "A", "ok")
  }

  /** A one-line Acme CSV and a debt override of 90000: the line loads as
      exactly the Acme record, and overriding `divida_total` yields a copy that
      differs from it only there (the loaded record keeps 50000, since the
      simulation writes into a fresh object). */
  lemma AcmeScenario(line: Row, acme: Record)
    requires line == AcmeLine() && acme == Acme()
    ensures ReadTable(Decoded([line]), SpacedLabels, CsvMissing, CsvCaught) == Loaded([acme], [])
    ensures Aplicar(acme, [("divida_total", PyInt(90000))]) == Success(acme.(dividaTotal := 90000))
  {
    assert line == RowOf(acme, SpacedLabels, true) by {
      Numerals();
    }
    EncodedLineLoads(acme, line);
    DebtOverride(acme, 90000);
  }

  /** Overriding `divida_total` with any `int` succeeds on any record and
      changes that attribute alone. */
  lemma DebtOverride(r: Record, n: int)
    ensures Aplicar(r, [("divida_total", PyInt(n))]) == Success(r.(dividaTotal := n))
  {
    assert FieldNamed("divida_total") == Some(DividaTotal);
    assert FieldType(r, DividaTotal) == IntType;
  }

  lemma EncodedLineLoads(r: Record, line: Row)
    requires line == RowOf(r, SpacedLabels, true)
    ensures ReadTable(Decoded([line]), SpacedLabels, CsvMissing, CsvCaught) == Loaded([r], [])
  {
    assert Encode([r], SpacedLabels, true) == [line] by {
      assert [r][..0] == [];
    }
    ReaderLabelsDistinct();
    EncodedTableLoads([r], SpacedLabels, CsvMissing, CsvCaught, true);
  }
}
