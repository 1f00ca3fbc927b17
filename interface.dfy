/** The two pieces of logic in the Streamlit front end (interface.py): the
    natural-sort key of the company selector and the override map the
    simulation form sends. */
module Interface {
  import opened Wrappers
  import opened Builtins
  import opened EmpresaModel
  import opened Api
  import opened ApiProperties

  // ---------------------------------------------------------------------------
  // The natural-sort key

  /** The key's values: a Python `int`, or `float('inf')`, which compares
      greater than every `int` and equal to itself. */
  datatype Key = Num(n: int) | Inf

  predicate KeyLe(a: Key, b: Key)
  {
    match (a, b)
    case (Num(x), Num(y)) => x <= y
    case (_, Inf) => true
    case (Inf, Num(_)) => false
  }

  /** `chave_de_ordenacao_numerica`: `int()` of the second `' '`-separated
      token; a missing token (`IndexError`) or one `int()` rejects
      (`ValueError`) gives `Inf`. */
  function ChaveDeOrdenacao(nome: string): Key
  {
    var tokens := Split(nome, ' ');
    if |tokens| < 2 then Inf
    else
      match ParseInt(tokens[1])
      case Some(n) => Num(n)
      case None => Inf
  }

  /** The key is the integer written as the second token: a first word, one
      space, the numeral, then nothing or a space and anything. */
  lemma ChaveOfSecondToken(prefixo: string, token: string, resto: string)
    requires ' ' !in prefixo && ' ' !in token
    requires resto == "" || resto[0] == ' '
    ensures ChaveDeOrdenacao(prefixo + " " + token + resto) ==
              if ParseInt(token).Some? then Num(ParseInt(token).value) else Inf
  {
    var nome := prefixo + " " + token + resto;
    assert nome == prefixo + [' '] + (token + resto);
    SplitAtFirst(prefixo, token + resto, ' ');
    if resto == "" {
      assert token + resto == token;
      SplitNoSeparator(token, ' ');
    } else {
      assert token + resto == token + [' '] + resto[1..];
      SplitAtFirst(token, resto[1..], ' ');
    }
  }

  /** "Empresa n" has key n, for every integer n. */
  lemma ChaveOfNumberedName(prefixo: string, n: int)
    requires ' ' !in prefixo
    ensures ChaveDeOrdenacao(prefixo + " " + IntToString(n)) == Num(n)
  {
    ParseIntOfIntToString(n);
    assert ' ' !in IntToString(n) by {
      NumeralHasNoSpace(n);
    }
    assert prefixo + " " + IntToString(n) + "" == prefixo + " " + IntToString(n);
    ChaveOfSecondToken(prefixo, IntToString(n), "");
  }

  lemma NumeralHasNoSpace(n: int)
    ensures forall k :: 0 <= k < |IntToString(n)| ==> IntToString(n)[k] != ' '
  {
    if n < 0 {
      var t := NatToString(-n);
      assert IntToString(n) == "-" + t;
      assert forall k :: 0 <= k < |t| ==> IsDigit(t[k]);
    } else {
      assert forall k :: 0 <= k < |NatToString(n)| ==> IsDigit(NatToString(n)[k]);
    }
  }

  /** A name with no second token (`IndexError`) has key `Inf`, e.g.
      "Empresa". */
  lemma NameWithoutSpaceLast(nome: string)
    requires ' ' !in nome
    ensures ChaveDeOrdenacao(nome) == Inf
  {
    SplitNoSeparator(nome, ' ');
  }

  /** A second token with no digit (`ValueError`) gives `Inf`: "Empresa X",
      and "Empresa  3", whose second token is the empty text between the two
      spaces. */
  lemma NonNumericTokenLast(prefixo: string, token: string, resto: string)
    requires ' ' !in prefixo && ' ' !in token
    requires resto == "" || resto[0] == ' '
    requires forall k :: 0 <= k < |token| ==> !IsDigit(token[k])
    ensures ChaveDeOrdenacao(prefixo + " " + token + resto) == Inf
  {
    ParseIntRejectsNonDigits(token);
    ChaveOfSecondToken(prefixo, token, resto);
  }

  lemma MalformedNamesLast(semNumero: string, comLetra: string, espacoDuplo: string)
    requires semNumero == "Empresa" && comLetra == "Empresa X" && espacoDuplo == "Empresa  3"
    ensures ChaveDeOrdenacao(semNumero) == Inf
    ensures ChaveDeOrdenacao(comLetra) == Inf
    ensures ChaveDeOrdenacao(espacoDuplo) == Inf
  {
    NameWithoutSpaceLast(semNumero);
    assert comLetra == semNumero + " " + comLetra[8..] + "";
    NonNumericTokenLast(semNumero, comLetra[8..], "");
    assert espacoDuplo == semNumero + " " + "" + espacoDuplo[8..];
    NonNumericTokenLast(semNumero, "", espacoDuplo[8..]);
  }

  /** "Empresa 10" has key 10 and "Empresa 2" key 2. */
  lemma DocumentedKeys(dez: string, dois: string)
    requires dez == "Empresa 10" && dois == "Empresa 2"
    ensures ChaveDeOrdenacao(dez) == Num(10)
    ensures ChaveDeOrdenacao(dois) == Num(2)
  {
    var empresa := dez[..7];
    assert IntToString(10) == dez[8..] && IntToString(2) == dois[8..];
    assert dez == empresa + " " + IntToString(10);
    assert dois == empresa + " " + IntToString(2);
    ChaveOfNumberedName(empresa, 10);
    ChaveOfNumberedName(empresa, 2);
  }

  // ---------------------------------------------------------------------------
  // Sorting the selector's names

  /** Ascending by `key`. */
  predicate SortedBy(key: string -> Key, nomes: seq<string>)
  {
    forall i, j :: 0 <= i < j < |nomes| ==> KeyLe(key(nomes[i]), key(nomes[j]))
  }

  /** Inserts `nome` before the first name whose key is not smaller, so that
      among equal keys the earlier of the input stays first. */
  function InserirPor(key: string -> Key, nome: string, nomes: seq<string>): (r: seq<string>)
    ensures multiset(r) == multiset(nomes) + multiset{nome}
  {
    if |nomes| == 0 || KeyLe(key(nome), key(nomes[0])) then
      [nome] + nomes
    else
      var rest := InserirPor(key, nome, nomes[1..]);
      assert nomes == [nomes[0]] + nomes[1..];
      [nomes[0]] + rest
  }

  /** `sorted(nomes, key=key)`, as a stable insertion sort. */
  function OrdenarPor(key: string -> Key, nomes: seq<string>): (r: seq<string>)
    ensures multiset(r) == multiset(nomes)
  {
    if |nomes| == 0 then []
    else
      assert nomes == [nomes[0]] + nomes[1..];
      InserirPor(key, nomes[0], OrdenarPor(key, nomes[1..]))
  }

  /** The selector's list: `sorted(nomes, key=chave_de_ordenacao_numerica)`. */
  function OrdenarNomes(nomes: seq<string>): seq<string>
  {
    OrdenarPor(ChaveDeOrdenacao, nomes)
  }

  lemma KeyLeTotal(a: Key, b: Key)
    ensures KeyLe(a, b) || KeyLe(b, a)
  {
  }

  lemma {:induction false} InserirPorSorted(key: string -> Key, nome: string, nomes: seq<string>)
    requires SortedBy(key, nomes)
    ensures SortedBy(key, InserirPor(key, nome, nomes))
    decreases |nomes|
  {
    if !(|nomes| == 0 || KeyLe(key(nome), key(nomes[0]))) {
      InserirPorSorted(key, nome, nomes[1..]);
      KeyLeTotal(key(nome), key(nomes[0]));
      HeadBoundsInsertion(key, nome, nomes);
      ConsSorted(key, nomes[0], InserirPor(key, nome, nomes[1..]));
    }
  }

  /** The first name of a sorted list has a key no greater than any name of
      its tail with `nome` inserted, when it is no greater than `nome`'s. */
  lemma HeadBoundsInsertion(key: string -> Key, nome: string, nomes: seq<string>)
    requires SortedBy(key, nomes) && |nomes| > 0 && KeyLe(key(nomes[0]), key(nome))
    ensures forall j :: 0 <= j < |InserirPor(key, nome, nomes[1..])| ==>
              KeyLe(key(nomes[0]), key(InserirPor(key, nome, nomes[1..])[j]))
  {
    var rest := InserirPor(key, nome, nomes[1..]);
    forall j | 0 <= j < |rest| ensures KeyLe(key(nomes[0]), key(rest[j])) {
      assert rest[j] in multiset(rest);
      assert rest[j] == nome || rest[j] in multiset(nomes[1..]);
      if rest[j] != nome {
        var k :| 0 <= k < |nomes[1..]| && nomes[1..][k] == rest[j];
        assert nomes[k + 1] == rest[j];
      }
    }
  }

  /** A name whose key bounds every key of a sorted list may go in front. */
  lemma ConsSorted(key: string -> Key, x: string, rest: seq<string>)
    requires SortedBy(key, rest)
    requires forall j :: 0 <= j < |rest| ==> KeyLe(key(x), key(rest[j]))
    ensures SortedBy(key, [x] + rest)
  {
    var r := [x] + rest;
    forall i, j | 0 <= i < j < |r| ensures KeyLe(key(r[i]), key(r[j])) {
      if i > 0 {
        assert r[i] == rest[i - 1] && r[j] == rest[j - 1];
      } else {
        assert r[j] == rest[j - 1];
      }
    }
  }

  /** The sort keeps every name, as often as it occurs, and orders the names
      by ascending key. */
  lemma {:induction false} OrdenarPorSortsAndPermutes(key: string -> Key, nomes: seq<string>)
    ensures multiset(OrdenarPor(key, nomes)) == multiset(nomes)
    ensures SortedBy(key, OrdenarPor(key, nomes))
    decreases |nomes|
  {
    if |nomes| > 0 {
      OrdenarPorSortsAndPermutes(key, nomes[1..]);
      InserirPorSorted(key, nomes[0], OrdenarPor(key, nomes[1..]));
    }
  }

  /** The selector shows the names the backend sent, each as often as it
      was sent, in ascending key order. */
  lemma OrdenarNomesSortsAndPermutes(nomes: seq<string>)
    ensures multiset(OrdenarNomes(nomes)) == multiset(nomes)
    ensures SortedBy(ChaveDeOrdenacao, OrdenarNomes(nomes))
  {
    OrdenarPorSortsAndPermutes(ChaveDeOrdenacao, nomes);
  }

  /** Every name with key `Inf` comes after every numbered name. */
  lemma UnnumberedNamesLast(nomes: seq<string>, i: nat, j: nat)
    requires i < |OrdenarNomes(nomes)| && j < |OrdenarNomes(nomes)|
    requires ChaveDeOrdenacao(OrdenarNomes(nomes)[i]).Inf?
    requires ChaveDeOrdenacao(OrdenarNomes(nomes)[j]).Num?
    ensures j < i
  {
    OrdenarNomesSortsAndPermutes(nomes);
  }

  /** Natural order: "Empresa 2" is shown before "Empresa 10", although it
      comes after it as text. */
  lemma NaturalOrder(dez: string, dois: string)
    requires dez == "Empresa 10" && dois == "Empresa 2"
    ensures OrdenarNomes([dez, dois]) == [dois, dez]
  {
    DocumentedKeys(dez, dois);
    assert [dez, dois][1..] == [dois];
    assert [dois][1..] == [];
    assert OrdenarPor(ChaveDeOrdenacao, [dois]) == [dois];
    assert InserirPor(ChaveDeOrdenacao, dez, []) == [dez];
  }

  // ---------------------------------------------------------------------------
  // The simulation form

  /** The attributes the form can override, in the order the handler
      inserts them into the dictionary. */
  const CamposFormulario: seq<Field> := [ReceitaAnual, DividaTotal, PrazoPagamento, Rating]

  /** Position of an attribute in `CamposFormulario` (4 for the others). */
  function Posicao(f: Field): nat
  {
    match f
    case ReceitaAnual => 0
    case DividaTotal => 1
    case PrazoPagamento => 2
    case Rating => 3
    case _ => 4
  }

  /** Dictionary lookup in an override list: the value stored last under
      `campo`, if any. */
  function Valor(alteracoes: seq<(string, PyValue)>, campo: string): Option<PyValue>
    decreases |alteracoes|
  {
    if |alteracoes| == 0 then None
    else if alteracoes[|alteracoes| - 1].0 == campo then Some(alteracoes[|alteracoes| - 1].1)
    else Valor(alteracoes[..|alteracoes| - 1], campo)
  }

  lemma ValorAppend(alteracoes: seq<(string, PyValue)>, p: (string, PyValue), campo: string)
    ensures Valor(alteracoes + [p], campo) == if p.0 == campo then Some(p.1) else Valor(alteracoes, campo)
  {
    assert (alteracoes + [p])[..|alteracoes|] == alteracoes;
  }

  function Numero(x: Option<int>): Option<PyValue>
  {
    if x.Some? then Some(PyInt(x.value)) else None
  }

  function Texto(x: Option<string>): Option<PyValue>
  {
    if x.Some? then Some(PyStr(x.value)) else None
  }

  /** The shape of every override list the form builds: each key is one of
      the four form attributes, at most once and in form order, the numeric
      ones carrying an integer and `rating` a text. */
  predicate FormOverrides(alteracoes: seq<(string, PyValue)>)
  {
    && (forall k :: 0 <= k < |alteracoes| ==>
          && FieldNamed(alteracoes[k].0).Some?
          && Posicao(FieldNamed(alteracoes[k].0).value) < 4
          && (if IsNumeric(FieldNamed(alteracoes[k].0).value) then alteracoes[k].1.PyInt?
              else alteracoes[k].1.PyStr?))
    && (forall i, j :: 0 <= i < j < |alteracoes| ==>
          FieldNamed(alteracoes[i].0).Some? && FieldNamed(alteracoes[j].0).Some? &&
          Posicao(FieldNamed(alteracoes[i].0).value) < Posicao(FieldNamed(alteracoes[j].0).value))
  }

  /** Appending an entry for an attribute later in form order than every
      present one keeps the shape. */
  lemma FormOverridesAppend(alteracoes: seq<(string, PyValue)>, f: Field, v: PyValue)
    requires FormOverrides(alteracoes)
    requires Posicao(f) < 4 && (if IsNumeric(f) then v.PyInt? else v.PyStr?)
    requires forall k :: 0 <= k < |alteracoes| ==> Posicao(FieldNamed(alteracoes[k].0).value) < Posicao(f)
    ensures FormOverrides(alteracoes + [(AttrName(f), v)])
  {
    FieldNamedAttrName(f);
    var r := alteracoes + [(AttrName(f), v)];
    assert forall k :: 0 <= k < |alteracoes| ==> r[k] == alteracoes[k];
  }

  /** The submit handler's dictionary: one entry per input that is not
      `None`, under its attribute's name, with the value entered. */
  method MontarAlteracoes(receita: Option<int>, divida: Option<int>, prazo: Option<int>, rating: Option<string>)
    returns (alteracoes: seq<(string, PyValue)>)
    ensures Valor(alteracoes, AttrName(ReceitaAnual)) == Numero(receita)
    ensures Valor(alteracoes, AttrName(DividaTotal)) == Numero(divida)
    ensures Valor(alteracoes, AttrName(PrazoPagamento)) == Numero(prazo)
    ensures Valor(alteracoes, AttrName(Rating)) == Texto(rating)
    ensures FormOverrides(alteracoes)
    ensures |alteracoes| == 0 <==> receita.None? && divida.None? && prazo.None? && rating.None?
  {
    alteracoes := [];
    if receita.Some? {
      alteracoes := alteracoes + [(AttrName(ReceitaAnual), PyInt(receita.value))];
    }
    assert alteracoes == Entrada(ReceitaAnual, Numero(receita));
    if divida.Some? {
      alteracoes := alteracoes + [(AttrName(DividaTotal), PyInt(divida.value))];
    }
    assert alteracoes == Entrada(ReceitaAnual, Numero(receita)) + Entrada(DividaTotal, Numero(divida));
    if prazo.Some? {
      alteracoes := alteracoes + [(AttrName(PrazoPagamento), PyInt(prazo.value))];
    }
    assert alteracoes == Entrada(ReceitaAnual, Numero(receita)) + Entrada(DividaTotal, Numero(divida))
                         + Entrada(PrazoPagamento, Numero(prazo));
    if rating.Some? {
      alteracoes := alteracoes + [(AttrName(Rating), PyStr(rating.value))];
    }
    var o1, o2, o3, o4 := Numero(receita), Numero(divida), Numero(prazo), Texto(rating);
    assert alteracoes == Formulario(o1, o2, o3, o4);
    FormularioValor(o1, o2, o3, o4, ReceitaAnual);
    FormularioValor(o1, o2, o3, o4, DividaTotal);
    FormularioValor(o1, o2, o3, o4, PrazoPagamento);
    FormularioValor(o1, o2, o3, o4, Rating);
    FormularioShape(o1, o2, o3, o4);
  }

  /** What one conditional insert appends: the entry, or nothing. */
  function Entrada(f: Field, o: Option<PyValue>): (e: seq<(string, PyValue)>)
    ensures |e| == 0 <==> o.None?
  {
    if o.Some? then [(AttrName(f), o.value)] else []
  }

  /** The four conditional inserts of the handler in order, given the form's
      four inputs. */
  function Formulario(o1: Option<PyValue>, o2: Option<PyValue>, o3: Option<PyValue>, o4: Option<PyValue>):
    seq<(string, PyValue)>
  {
    Entrada(ReceitaAnual, o1) + Entrada(DividaTotal, o2) + Entrada(PrazoPagamento, o3) + Entrada(Rating, o4)
  }

  /** Looking an attribute up in the form's dictionary finds its input. */
  lemma FormularioValor(o1: Option<PyValue>, o2: Option<PyValue>, o3: Option<PyValue>, o4: Option<PyValue>, g: Field)
    ensures Valor(Formulario(o1, o2, o3, o4), AttrName(g)) ==
              if g == ReceitaAnual then o1 else if g == DividaTotal then o2
              else if g == PrazoPagamento then o3 else if g == Rating then o4 else None
  {
    var a, b, c, d := Entrada(ReceitaAnual, o1), Entrada(DividaTotal, o2),
                      Entrada(PrazoPagamento, o3), Entrada(Rating, o4);
    var campo := AttrName(g);
    ValorConcat(a + b + c, d, campo);
    ValorConcat(a + b, c, campo);
    ValorConcat(a, b, campo);
    ValorEntrada(ReceitaAnual, o1, g);
    ValorEntrada(DividaTotal, o2, g);
    ValorEntrada(PrazoPagamento, o3, g);
    ValorEntrada(Rating, o4, g);
  }

  lemma ValorEntrada(f: Field, o: Option<PyValue>, g: Field)
    ensures Valor(Entrada(f, o), AttrName(g)) == if f == g then o else None
  {
    if o.Some? && f != g {
      FieldNamedAttrName(f);
      FieldNamedAttrName(g);
    }
  }

  /** A lookup in `xs + ys` finds the entry in `ys` if there is one, and
      otherwise the one in `xs`. */
  lemma {:induction false} ValorConcat(xs: seq<(string, PyValue)>, ys: seq<(string, PyValue)>, campo: string)
    ensures Valor(xs + ys, campo) == if Valor(ys, campo).Some? then Valor(ys, campo) else Valor(xs, campo)
    decreases |ys|
  {
    if |ys| == 0 {
      assert xs + ys == xs;
    } else {
      var n := |ys| - 1;
      assert (xs + ys)[..|xs + ys| - 1] == xs + ys[..n];
      assert (xs + ys)[|xs + ys| - 1] == ys[n];
      ValorConcat(xs, ys[..n], campo);
    }
  }

  /** Every key of `alteracoes` is a form attribute before position `n`. */
  predicate Abaixo(alteracoes: seq<(string, PyValue)>, n: nat)
  {
    forall k :: 0 <= k < |alteracoes| ==>
      FieldNamed(alteracoes[k].0).Some? && Posicao(FieldNamed(alteracoes[k].0).value) < n
  }

  /** The form's dictionary has the shape of `FormOverrides`. */
  lemma FormularioShape(o1: Option<PyValue>, o2: Option<PyValue>, o3: Option<PyValue>, o4: Option<PyValue>)
    requires o1.Some? ==> o1.value.PyInt?
    requires o2.Some? ==> o2.value.PyInt?
    requires o3.Some? ==> o3.value.PyInt?
    requires o4.Some? ==> o4.value.PyStr?
    ensures FormOverrides(Formulario(o1, o2, o3, o4))
  {
    ShapeAfterThree(o1, o2, o3);
    Passo(Entrada(ReceitaAnual, o1) + Entrada(DividaTotal, o2) + Entrada(PrazoPagamento, o3), Rating, o4);
  }

  lemma ShapeAfterOne(o1: Option<PyValue>)
    requires o1.Some? ==> o1.value.PyInt?
    ensures FormOverrides(Entrada(ReceitaAnual, o1)) && Abaixo(Entrada(ReceitaAnual, o1), 1)
  {
    Passo([], ReceitaAnual, o1);
    assert [] + Entrada(ReceitaAnual, o1) == Entrada(ReceitaAnual, o1);
  }

  lemma ShapeAfterTwo(o1: Option<PyValue>, o2: Option<PyValue>)
    requires o1.Some? ==> o1.value.PyInt?
    requires o2.Some? ==> o2.value.PyInt?
    ensures var a := Entrada(ReceitaAnual, o1) + Entrada(DividaTotal, o2);
      FormOverrides(a) && Abaixo(a, 2)
  {
    ShapeAfterOne(o1);
    Passo(Entrada(ReceitaAnual, o1), DividaTotal, o2);
  }

  lemma ShapeAfterThree(o1: Option<PyValue>, o2: Option<PyValue>, o3: Option<PyValue>)
    requires o1.Some? ==> o1.value.PyInt?
    requires o2.Some? ==> o2.value.PyInt?
    requires o3.Some? ==> o3.value.PyInt?
    ensures var a := Entrada(ReceitaAnual, o1) + Entrada(DividaTotal, o2) + Entrada(PrazoPagamento, o3);
      FormOverrides(a) && Abaixo(a, 3)
  {
    ShapeAfterTwo(o1, o2);
    Passo(Entrada(ReceitaAnual, o1) + Entrada(DividaTotal, o2), PrazoPagamento, o3);
  }

  /** One conditional insert keeps the shape and moves the bound past its attribute. */
  lemma Passo(alteracoes: seq<(string, PyValue)>, f: Field, o: Option<PyValue>)
    requires FormOverrides(alteracoes) && Abaixo(alteracoes, Posicao(f)) && Posicao(f) < 4
    requires o.Some? ==> if IsNumeric(f) then o.value.PyInt? else o.value.PyStr?
    ensures FormOverrides(alteracoes + Entrada(f, o)) && Abaixo(alteracoes + Entrada(f, o), Posicao(f) + 1)
  {
    if o.Some? {
      FormOverridesAppend(alteracoes, f, o.value);
      FieldNamedAttrName(f);
      var r := alteracoes + [(AttrName(f), o.value)];
      assert forall k :: 0 <= k < |alteracoes| ==> r[k] == alteracoes[k];
    } else {
      assert alteracoes + Entrada(f, o) == alteracoes;
    }
  }

  lemma FormFieldNamesDistinct()
    ensures forall f, g :: AttrName(f) == AttrName(g) ==> f == g
  {
    forall f, g | AttrName(f) == AttrName(g) ensures f == g {
      FieldNamedAttrName(f);
      FieldNamedAttrName(g);
    }
  }

  /** One conditional insert of the handler: the new entry is found under its
      attribute, every other attribute's entry is as before, and the shape is
      kept. */
  lemma Inserted(alteracoes: seq<(string, PyValue)>, f: Field, v: PyValue)
    requires FormOverrides(alteracoes)
    requires Posicao(f) < 4 && (if IsNumeric(f) then v.PyInt? else v.PyStr?)
    requires forall k :: 0 <= k < |alteracoes| ==> Posicao(FieldNamed(alteracoes[k].0).value) < Posicao(f)
    ensures forall g :: Valor(alteracoes + [(AttrName(f), v)], AttrName(g)) ==
              if g == f then Some(v) else Valor(alteracoes, AttrName(g))
    ensures FormOverrides(alteracoes + [(AttrName(f), v)])
    ensures forall k :: 0 <= k < |alteracoes| + 1 ==>
              Posicao(FieldNamed((alteracoes + [(AttrName(f), v)])[k].0).value) <= Posicao(f)
  {
    InsertedLookup(alteracoes, f, v);
    FormOverridesAppend(alteracoes, f, v);
    InsertedPositions(alteracoes, f, v);
  }

  lemma InsertedLookup(alteracoes: seq<(string, PyValue)>, f: Field, v: PyValue)
    ensures forall g :: Valor(alteracoes + [(AttrName(f), v)], AttrName(g)) ==
              if g == f then Some(v) else Valor(alteracoes, AttrName(g))
  {
    FormFieldNamesDistinct();
    forall g ensures Valor(alteracoes + [(AttrName(f), v)], AttrName(g)) ==
                     if g == f then Some(v) else Valor(alteracoes, AttrName(g))
    {
      ValorAppend(alteracoes, (AttrName(f), v), AttrName(g));
    }
  }

  lemma InsertedPositions(alteracoes: seq<(string, PyValue)>, f: Field, v: PyValue)
    requires FormOverrides(alteracoes)
    requires forall k :: 0 <= k < |alteracoes| ==> Posicao(FieldNamed(alteracoes[k].0).value) < Posicao(f)
    ensures forall k :: 0 <= k < |alteracoes| + 1 ==>
              Posicao(FieldNamed((alteracoes + [(AttrName(f), v)])[k].0).value) <= Posicao(f)
  {
    FieldNamedAttrName(f);
    var r := alteracoes + [(AttrName(f), v)];
    assert forall k :: 0 <= k < |alteracoes| ==> r[k] == alteracoes[k];
  }

  /** What submitting the form does: a warning when nothing was changed,
      otherwise a simulation request for the selected company. */
  datatype Envio = Aviso | Requisicao(nomeEmpresa: string, alteracoes: seq<(string, PyValue)>)

  function Submeter(nome: string, alteracoes: seq<(string, PyValue)>): (e: Envio)
    ensures e.Aviso? <==> |alteracoes| == 0
    ensures e.Requisicao? ==> e.nomeEmpresa == nome && e.alteracoes == alteracoes
  {
    if |alteracoes| == 0 then Aviso else Requisicao(nome, alteracoes)
  }

  /** Whatever the form sends, the backend accepts for a record whose text
      attributes hold text: the simulation gets past the override loop, and
      the copy holds each entered value under its attribute. */
  lemma FormOverridesApply(r: Record, alteracoes: seq<(string, PyValue)>)
    requires WellTyped(r) && FormOverrides(alteracoes)
    ensures Aplicar(r, alteracoes).Success?
    ensures forall f :: Valor(alteracoes, AttrName(f)).Some? ==>
              Get(Aplicar(r, alteracoes).value, f) == Valor(alteracoes, AttrName(f)).value
  {
    WellTypedOverridesApply(r, alteracoes);
    forall f | Valor(alteracoes, AttrName(f)).Some?
      ensures Get(Aplicar(r, alteracoes).value, f) == Valor(alteracoes, AttrName(f)).value
    {
      var k := LastIndexOf(alteracoes, AttrName(f));
      NamedFieldConverted(r, alteracoes, k, f);
      DeclaredTypes(r, f);
      FieldNamedAttrName(f);
    }
  }

  /** A request the form sends about a company whose text attributes hold
      text is never refused: the answer is the simulated analysis, or a 500
      when the generator fails. */
  lemma FormRequestNeverRefused(rs: seq<Record>, nome: string, alteracoes: seq<(string, PyValue)>, gerar: Gerador)
    requires FormOverrides(alteracoes) && Submeter(nome, alteracoes).Requisicao?
    requires FindFirst(rs, nome).Some? && WellTyped(rs[FindFirst(rs, nome).value])
    ensures var resp := SimulacaoDe(rs, nome, alteracoes, gerar);
      resp.Ok? || (resp.HttpError? && resp.status == 500)
  {
    FormOverridesApply(rs[FindFirst(rs, nome).value], alteracoes);
  }

  /** The position of the entry `Valor` finds. */
  lemma LastIndexOf(alteracoes: seq<(string, PyValue)>, campo: string) returns (k: nat)
    requires Valor(alteracoes, campo).Some?
    ensures k < |alteracoes| && alteracoes[k].0 == campo && alteracoes[k].1 == Valor(alteracoes, campo).value
    ensures forall j :: k < j < |alteracoes| ==> alteracoes[j].0 != campo
    decreases |alteracoes|
  {
    var n := |alteracoes| - 1;
    if alteracoes[n].0 == campo {
      k := n;
    } else {
      k := LastIndexOf(alteracoes[..n], campo);
    }
  }
}
