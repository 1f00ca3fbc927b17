/** The credit-analysis service (main.py): the records loaded at startup,
    name lookup, the four endpoints and the scenario simulation that writes
    overrides into a copy of a record. The analysis generator is a network
    call to a language model and is a parameter here. */
module Api {
  import opened Wrappers
  import opened Builtins
  import opened EmpresaModel
  import opened Parses
  import opened ParsesProperties

  // ---------------------------------------------------------------------------
  // Lookup

  /** `next(emp for emp in lista if emp.nome == nome)`: the position of the
      first record whose `nome` is the `str` `nome`, or `None`. A `nome` that
      is not a `str` never equals the requested text. */
  function FindFirst(rs: seq<Record>, nome: string): (r: Option<nat>)
    ensures r.Some? ==> r.value < |rs| && rs[r.value].nome == PyStr(nome)
    ensures r.Some? ==> forall j :: 0 <= j < r.value ==> rs[j].nome != PyStr(nome)
    ensures r.None? <==> forall j :: 0 <= j < |rs| ==> rs[j].nome != PyStr(nome)
    decreases |rs|
  {
    if |rs| == 0 then None
    else if rs[0].nome == PyStr(nome) then Some(0)
    else
      match FindFirst(rs[1..], nome)
      case None => None
      case Some(i) => Some(i + 1)
  }

  // ---------------------------------------------------------------------------
  // Responses

  /** The JSON bodies of the successful responses. */
  datatype Body =
    | Nomes(nomes: seq<PyValue>)
    | Detalhes(dados: Record)
    | Analise(empresa: string, analiseDeCredito: string)
    | Simulacao(empresa: string, cenarioSimulado: seq<(string, PyValue)>, analiseSimulada: string)

  /** What an endpoint produces: a 200 with a body, an `HTTPException` it
      raises, or an exception it lets escape (which the framework turns into
      a generic 500). */
  datatype Response =
    | Ok(body: Body)
    | HttpError(status: nat, detail: string)
    | Unhandled(error: PyError)

  /** The analysis generator: the analysis text, or the message of the
      exception it raised. */
  type Gerador = Record -> Result<string, string>

  const NaoEncontrada: string := "Empresa não encontrada"
  const NaoEncontradaSimulacao: string := "Empresa não encontrada para simulação"
  const ErroAnalise: string := "Erro interno ao processar análise de IA: "
  const ErroSimulacao: string := "Erro interno ao processar simulação de IA: "

  /** The 400 detail: the field's name and the value as `str()` prints it. */
  function ValorInvalido(campo: string, valor: PyValue): string
  {
    "Valor inválido para o campo '" + campo + "': " + ToStr(valor)
  }

  // ---------------------------------------------------------------------------
  // The read-only endpoints, over the loaded records

  /** `GET /empresas`: the names, in loaded order. */
  function ListarNomes(rs: seq<Record>): (nomes: seq<PyValue>)
    ensures |nomes| == |rs|
    ensures forall i :: 0 <= i < |rs| ==> nomes[i] == rs[i].nome
  {
    seq(|rs|, i requires 0 <= i < |rs| => rs[i].nome)
  }

  /** `GET /empresa/{nome}`: the first record with that name, or 404. */
  function DetalhesDe(rs: seq<Record>, nome: string): (resp: Response)
    ensures resp.Ok? || resp == HttpError(404, NaoEncontrada)
    ensures resp.Ok? <==> exists i :: 0 <= i < |rs| && rs[i].nome == PyStr(nome)
    ensures resp.Ok? ==> resp.body.Detalhes? && resp.body.dados.nome == PyStr(nome)
    ensures resp.Ok? ==> exists i :: 0 <= i < |rs| && resp.body == Detalhes(rs[i])
                                     && forall j :: 0 <= j < i ==> rs[j].nome != PyStr(nome)
  {
    match FindFirst(rs, nome)
    case None => HttpError(404, NaoEncontrada)
    case Some(i) => Ok(Detalhes(rs[i]))
  }

  /** `GET /analise/{nome}`: 404 when no record has the name; otherwise the
      generator runs on the first match, its failure giving a 500. */
  function AnaliseDe(rs: seq<Record>, nome: string, gerar: Gerador): (resp: Response)
    ensures FindFirst(rs, nome).None? <==> resp == HttpError(404, NaoEncontrada)
    ensures FindFirst(rs, nome).Some? ==>
              var g := gerar(rs[FindFirst(rs, nome).value]);
              resp == if g.Success? then Ok(Analise(nome, g.value)) else HttpError(500, ErroAnalise + g.error)
  {
    match FindFirst(rs, nome)
    case None => HttpError(404, NaoEncontrada)
    case Some(i) =>
      match gerar(rs[i])
      case Success(a) => Ok(Analise(nome, a))
      case Failure(msg) => HttpError(500, ErroAnalise + msg)
  }

  // ---------------------------------------------------------------------------
  // Simulation

  /** `tipo_original(valor)`, the class of the current value applied to the
      override: `int()` for an `int`, `str()` for a `str`; calling `NoneType`
      with an argument raises `TypeError`. The result has the class asked for,
      and every failure is one the endpoint's handler catches. */
  function Convert(t: PyType, v: PyValue): (r: Result<PyValue, PyError>)
    ensures r.Success? ==> TypeOf(r.value) == t
    ensures r.Success? <==> t == StrType || (t == IntType && ToInt(v).Success?)
    ensures r.Failure? ==> r.error in {ValueError, TypeError}
    ensures t == IntType && r.Success? ==> r.value == PyInt(ToInt(v).value)
    ensures t == StrType ==> r == Success(PyStr(ToStr(v)))
  {
    match t
    case IntType =>
      (match ToInt(v)
       case Success(n) => Success(PyInt(n))
       case Failure(e) => Failure(e))
    case StrType => Success(PyStr(ToStr(v)))
    case NoneType => Failure(TypeError)
  }

  /** Why an override was refused: a value its field's class rejects (the
      400), or a name that is not an attribute. For the latter the code means
      to log a warning and go on, but `logging` is never imported in main.py,
      so the warning itself raises `NameError` and the request fails. */
  datatype SimError = InvalidValue(campo: string, valor: PyValue) | UnknownField(campo: string)

  /** One iteration of the override loop on the copy's current value. */
  function Step(r: Record, campo: string, valor: PyValue): (res: Result<Record, SimError>)
    ensures res.Success? ==> forall f :: FieldType(res.value, f) == FieldType(r, f)
    ensures res.Success? ==>
              && FieldNamed(campo).Some?
              && Convert(FieldType(r, FieldNamed(campo).value), valor).Success?
              && Get(res.value, FieldNamed(campo).value) == Convert(FieldType(r, FieldNamed(campo).value), valor).value
              && forall g :: g != FieldNamed(campo).value ==> Get(res.value, g) == Get(r, g)
    ensures res == Failure(UnknownField(campo)) <==> FieldNamed(campo).None?
    ensures res == Failure(InvalidValue(campo, valor)) <==>
              FieldNamed(campo).Some? && Convert(FieldType(r, FieldNamed(campo).value), valor).Failure?
  {
    match FieldNamed(campo)
    case None => Failure(UnknownField(campo))
    case Some(f) =>
      match Convert(FieldType(r, f), valor)
      case Failure(_) => Failure(InvalidValue(campo, valor))
      case Success(v) =>
        GetSet(r, f, v, f);
        assert forall g :: Get(Set(r, f, v), g) == if g == f then v else Get(r, g) by {
          forall g ensures Get(Set(r, f, v), g) == if g == f then v else Get(r, g) {
            GetSet(r, f, v, g);
          }
        }
        Success(Set(r, f, v))
  }

  /** The override loop's meaning: the overrides applied in order to a copy
      of `r`, stopping at the first refused one. */
  function Aplicar(r: Record, alteracoes: seq<(string, PyValue)>): Result<Record, SimError>
    decreases |alteracoes|
  {
    if |alteracoes| == 0 then Success(r)
    else
      var s :- Step(r, alteracoes[0].0, alteracoes[0].1);
      Aplicar(s, alteracoes[1..])
  }

  /** The loop from override `i` on: one step, then the rest. */
  lemma AplicarFrom(r: Record, alteracoes: seq<(string, PyValue)>, i: nat)
    requires i < |alteracoes|
    ensures Aplicar(r, alteracoes[i..]) ==
              match Step(r, alteracoes[i].0, alteracoes[i].1)
              case Failure(e) => Failure(e)
              case Success(s) => Aplicar(s, alteracoes[i + 1..])
  {
    assert alteracoes[i..][0] == alteracoes[i];
    assert alteracoes[i..][1..] == alteracoes[i + 1..];
  }

  /** `POST /simular`: 404 when no record has the name; a refused override
      gives a 400 naming the field (an unknown field escapes as `NameError`);
      otherwise the generator runs on the simulated copy and the response
      echoes the overrides as sent. */
  function SimulacaoDe(rs: seq<Record>, nome: string, alteracoes: seq<(string, PyValue)>, gerar: Gerador): (resp: Response)
    ensures FindFirst(rs, nome).None? <==> resp == HttpError(404, NaoEncontradaSimulacao)
    ensures FindFirst(rs, nome).Some? ==>
              var a := Aplicar(rs[FindFirst(rs, nome).value], alteracoes);
              && (a.Failure? && a.error.InvalidValue? ==>
                    resp == HttpError(400, ValorInvalido(a.error.campo, a.error.valor)))
              && (a.Failure? && a.error.UnknownField? ==> resp == Unhandled(NameError))
              && (a.Success? ==>
                    resp == if gerar(a.value).Success? then Ok(Simulacao(nome, alteracoes, gerar(a.value).value))
                            else HttpError(500, ErroSimulacao + gerar(a.value).error))
  {
    match FindFirst(rs, nome)
    case None => HttpError(404, NaoEncontradaSimulacao)
    case Some(i) =>
      match Aplicar(rs[i], alteracoes)
      case Failure(InvalidValue(campo, valor)) => HttpError(400, ValorInvalido(campo, valor))
      case Failure(UnknownField(_)) => Unhandled(NameError)
      case Success(simulada) =>
        match gerar(simulada)
        case Success(a) => Ok(Simulacao(nome, alteracoes, a))
        case Failure(msg) => HttpError(500, ErroSimulacao + msg)
  }

  // ---------------------------------------------------------------------------
  // The application state

  /** The values of a list of `Empresa` objects. */
  function RecordsOf(es: seq<Empresa>): (rs: seq<Record>)
    reads es
    ensures |rs| == |es|
    ensures forall i :: 0 <= i < |es| ==> rs[i] == es[i].Value()
    decreases |es|
  {
    if |es| == 0 then [] else RecordsOf(es[..|es| - 1]) + [es[|es| - 1].Value()]
  }

  /** The data file the service loads at startup, `dados/dadoscreditoficticios.csv`. */
  const CaminhoDados: string := "dados/dadoscreditoficticios" + ".csv"

  /** The data file's extension selects the CSV reader. */
  lemma CaminhoDadosIsCsv(files: Decodings)
    ensures Carregar(CaminhoDados, files) == ReadTable(files.csv, SpacedLabels, CsvMissing, CsvCaught)
  {
    CaminhoDadosExtension();
  }

  lemma CaminhoDadosExtension()
    ensures Extension(CaminhoDados) == "csv"
  {
    assert PlainStem("dados/dadoscreditoficticios");
    ExtensionOfPlainName("dados/dadoscreditoficticios", "csv");
    assert CaminhoDados == "dados/dadoscreditoficticios" + "." + "csv";
  }

  /** What startup leaves in the list: the loaded records, or none at all
      when the load raised anything. */
  function RegistrosIniciais(load: LoadResult): seq<Record>
  {
    match load
    case Loaded(rs, _) => rs
    case Raised(_) => []
  }

  /** One new `Empresa` object per loaded record, in order. */
  method Instanciar(rs: seq<Record>) returns (es: seq<Empresa>)
    ensures RecordsOf(es) == rs
    ensures forall e :: e in es ==> fresh(e)
  {
    es := [];
    var i := 0;
    while i < |rs|
      invariant 0 <= i <= |rs|
      invariant forall e :: e in es ==> fresh(e)
      invariant RecordsOf(es) == rs[..i]
    {
      var e := new Empresa(rs[i]);
      assert RecordsOf(es + [e])[..i] == RecordsOf(es);
      es := es + [e];
      assert rs[..i + 1] == rs[..i] + [rs[i]];
      i := i + 1;
    }
    assert rs[..i] == rs;
  }

  /** The application: `app.state.lista_empresas`. */
  class App {
    var listaEmpresas: seq<Empresa>

    function Registros(): seq<Record>
      reads this, listaEmpresas
    {
      RecordsOf(listaEmpresas)
    }

    constructor ()
      ensures listaEmpresas == []
    {
      listaEmpresas := [];
    }

    /** `carregar_modelo_e_dados`: loads the fixed data path, which goes to
        the CSV reader; any exception leaves an empty list instead of
        stopping the server. */
    method Startup(files: Decodings)
      modifies this
      ensures Registros() == RegistrosIniciais(ReadTable(files.csv, SpacedLabels, CsvMissing, CsvCaught))
      ensures forall e :: e in listaEmpresas ==> fresh(e)
    {
      var load := CarregarDadosDeArquivo(CaminhoDados, false, files);
      CaminhoDadosIsCsv(files);
      match load {
        case Raised(_) =>
          listaEmpresas := [];
        case Loaded(rs, _) =>
          listaEmpresas := Instanciar(rs);
      }
    }

    function ListarEmpresas(): Response
      reads this, listaEmpresas
    {
      Ok(Nomes(ListarNomes(Registros())))
    }

    function DetalhesEmpresa(nome: string): Response
      reads this, listaEmpresas
    {
      DetalhesDe(Registros(), nome)
    }

    function AnalisarEmpresa(nome: string, gerar: Gerador): Response
      reads this, listaEmpresas
    {
      AnaliseDe(Registros(), nome, gerar)
    }

    /** `simular_cenario_endpoint`: copies the found record into a fresh
        object and writes each override into the copy. It modifies nothing
        that exists when it is called, so the loaded records are left as
        they were. */
    method SimularCenario(nome: string, alteracoes: seq<(string, PyValue)>, gerar: Gerador) returns (resp: Response)
      ensures resp == SimulacaoDe(Registros(), nome, alteracoes, gerar)
      ensures Registros() == old(Registros())
    {
      var rs := Registros();
      var found := FindFirst(rs, nome);
      if found.None? {
        return HttpError(404, NaoEncontradaSimulacao);
      }
      var original := listaEmpresas[found.value];
      var simulada := new Empresa(original.Value());
      var i := 0;
      while i < |alteracoes|
        invariant 0 <= i <= |alteracoes|
        invariant Registros() == rs
        invariant Aplicar(rs[found.value], alteracoes) == Aplicar(simulada.Value(), alteracoes[i..])
      {
        var (campo, valor) := alteracoes[i];
        AplicarFrom(simulada.Value(), alteracoes, i);
        match FieldNamed(campo) {
          case None =>
            return Unhandled(NameError);
          case Some(f) =>
            var tipoOriginal := TypeOf(Get(simulada.Value(), f));
            match Convert(tipoOriginal, valor) {
              case Failure(_) =>
                return HttpError(400, ValorInvalido(campo, valor));
              case Success(v) =>
                simulada.SetAttr(f, v);
            }
        }
        i := i + 1;
      }
      match gerar(simulada.Value()) {
        case Success(a) => resp := Ok(Simulacao(nome, alteracoes, a));
        case Failure(msg) => resp := HttpError(500, ErroSimulacao + msg);
      }
    }
  }
}
