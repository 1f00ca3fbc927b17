/** The company record `Empresa`: a mutable dataclass with seven attributes.
    `Record` is its value (what dataclass equality compares), `Empresa` the
    object whose attributes `setattr` reassigns. */
module EmpresaModel {
  import opened Wrappers
  import opened Builtins

  /** The seven attributes, in declaration order. */
  datatype Field =
    | Nome
    | ReceitaAnual
    | DividaTotal
    | PrazoPagamento
    | Setor
    | Rating
    | NoticiasRecentes

  const Fields: seq<Field> :=
    [Nome, ReceitaAnual, DividaTotal, PrazoPagamento, Setor, Rating, NoticiasRecentes]

  /** The Python attribute name of each field. */
  function AttrName(f: Field): string
  {
    match f
    case Nome => "nome"
    case ReceitaAnual => "receita_anual"
    case DividaTotal => "divida_total"
    case PrazoPagamento => "prazo_pagamento"
    case Setor => "setor"
    case Rating => "rating"
    case NoticiasRecentes => "noticias_recentes"
  }

  /** Resolves an attribute name, as `hasattr`/`getattr` do for the seven
      declared attributes: the field with exactly that name, if any. */
  function FieldNamed(name: string): (r: Option<Field>)
    ensures r.Some? ==> AttrName(r.value) == name
    ensures r.None? ==> forall f :: AttrName(f) != name
  {
    if name == "nome" then Some(Nome)
    else if name == "receita_anual" then Some(ReceitaAnual)
    else if name == "divida_total" then Some(DividaTotal)
    else if name == "prazo_pagamento" then Some(PrazoPagamento)
    else if name == "setor" then Some(Setor)
    else if name == "rating" then Some(Rating)
    else if name == "noticias_recentes" then Some(NoticiasRecentes)
    else None
  }

  /** The type annotation of each attribute. */
  datatype Kind = IntKind | StrKind

  function Declared(f: Field): Kind
  {
    if f == ReceitaAnual || f == DividaTotal || f == PrazoPagamento then IntKind else StrKind
  }

  predicate IsNumeric(f: Field)
  {
    Declared(f) == IntKind
  }

  /** The value of an `Empresa`. The numeric attributes always hold a Python
      `int`, since every path that writes them goes through `int()`. The text
      attributes hold whatever value was supplied: dataclass annotations are
      not enforced, so a decoder's `None` or `int` is stored as it is. */
  datatype Record = Record(
    nome: PyValue,
    receitaAnual: int,
    dividaTotal: int,
    prazoPagamento: int,
    setor: PyValue,
    rating: PyValue,
    noticiasRecentes: PyValue)

  /** `getattr(r, AttrName(f))`. */
  function Get(r: Record, f: Field): PyValue
  {
    match f
    case Nome => r.nome
    case ReceitaAnual => PyInt(r.receitaAnual)
    case DividaTotal => PyInt(r.dividaTotal)
    case PrazoPagamento => PyInt(r.prazoPagamento)
    case Setor => r.setor
    case Rating => r.rating
    case NoticiasRecentes => r.noticiasRecentes
  }

  /** `setattr(r, AttrName(f), v)` on the value; numeric attributes take `int`s. */
  function Set(r: Record, f: Field, v: PyValue): Record
    requires IsNumeric(f) ==> v.PyInt?
  {
    match f
    case Nome => r.(nome := v)
    case ReceitaAnual => r.(receitaAnual := v.i)
    case DividaTotal => r.(dividaTotal := v.i)
    case PrazoPagamento => r.(prazoPagamento := v.i)
    case Setor => r.(setor := v)
    case Rating => r.(rating := v)
    case NoticiasRecentes => r.(noticiasRecentes := v)
  }

  /** `type(getattr(r, AttrName(f)))`. */
  function FieldType(r: Record, f: Field): PyType
  {
    TypeOf(Get(r, f))
  }

  /** Every text attribute actually holds a `str`, as its annotation says. */
  predicate WellTyped(r: Record)
  {
    r.nome.PyStr? && r.setor.PyStr? && r.rating.PyStr? && r.noticiasRecentes.PyStr?
  }

  /** There are exactly seven attributes, each listed once, in the order
      nome, receita_anual, divida_total, prazo_pagamento, setor, rating,
      noticias_recentes. */
  lemma FieldsInDeclarationOrder()
    ensures |Fields| == 7
    ensures forall f: Field :: f in Fields
    ensures forall i, j :: 0 <= i < j < |Fields| ==> Fields[i] != Fields[j]
    ensures seq(7, i requires 0 <= i < 7 => AttrName(Fields[i])) ==
            ["nome", "receita_anual", "divida_total", "prazo_pagamento",
             "setor", "rating", "noticias_recentes"]
  {
    forall f: Field ensures f in Fields {
      match f
      case Nome => assert Fields[0] == f;
      case ReceitaAnual => assert Fields[1] == f;
      case DividaTotal => assert Fields[2] == f;
      case PrazoPagamento => assert Fields[3] == f;
      case Setor => assert Fields[4] == f;
      case Rating => assert Fields[5] == f;
      case NoticiasRecentes => assert Fields[6] == f;
    }
  }

  /** Three attributes are declared `int`, the other four `str`; the numeric
      ones hold an `int` in every record. */
  lemma DeclaredTypes(r: Record, f: Field)
    ensures IsNumeric(f) <==> f in {ReceitaAnual, DividaTotal, PrazoPagamento}
    ensures IsNumeric(f) ==> FieldType(r, f) == IntType
    ensures WellTyped(r) && !IsNumeric(f) ==> FieldType(r, f) == StrType
  {
  }

  /** The attribute names resolve back to their fields and to nothing else. */
  lemma FieldNamedAttrName(f: Field)
    ensures FieldNamed(AttrName(f)) == Some(f)
  {
  }

  /** Writing one attribute changes that attribute and no other. */
  lemma GetSet(r: Record, f: Field, v: PyValue, g: Field)
    requires IsNumeric(f) ==> v.PyInt?
    ensures Get(Set(r, f, v), g) == if g == f then v else Get(r, g)
  {
  }

  /** Dataclass equality: two records are equal exactly when all seven
      attributes are equal. */
  lemma RecordEquality(a: Record, b: Record)
    ensures a == b <==> forall f :: Get(a, f) == Get(b, f)
  {
    if forall f :: Get(a, f) == Get(b, f) {
      assert Get(a, Nome) == Get(b, Nome);
      assert Get(a, ReceitaAnual) == Get(b, ReceitaAnual);
      assert Get(a, DividaTotal) == Get(b, DividaTotal);
      assert Get(a, PrazoPagamento) == Get(b, PrazoPagamento);
      assert Get(a, Setor) == Get(b, Setor);
      assert Get(a, Rating) == Get(b, Rating);
      assert Get(a, NoticiasRecentes) == Get(b, NoticiasRecentes);
    }
  }

  /** Writes to two different attributes commute. */
  lemma SetCommutes(r: Record, f: Field, v: PyValue, g: Field, w: PyValue)
    requires f != g
    requires IsNumeric(f) ==> v.PyInt?
    requires IsNumeric(g) ==> w.PyInt?
    ensures Set(Set(r, f, v), g, w) == Set(Set(r, g, w), f, v)
  {
  }

  /** An `Empresa` object: the dataclass is not frozen, so each attribute is a
      mutable field. */
  class Empresa {
    var nome: PyValue
    var receitaAnual: int
    var dividaTotal: int
    var prazoPagamento: int
    var setor: PyValue
    var rating: PyValue
    var noticiasRecentes: PyValue

    /** The record value this object currently holds. */
    function Value(): Record
      reads this
    {
      Record(nome, receitaAnual, dividaTotal, prazoPagamento, setor, rating, noticiasRecentes)
    }

    /** The generated `__init__`, taking the seven attributes. */
    constructor (r: Record)
      ensures Value() == r
    {
      nome := r.nome;
      receitaAnual := r.receitaAnual;
      dividaTotal := r.dividaTotal;
      prazoPagamento := r.prazoPagamento;
      setor := r.setor;
      rating := r.rating;
      noticiasRecentes := r.noticiasRecentes;
    }

    /** `setattr(self, AttrName(f), v)`. */
    method SetAttr(f: Field, v: PyValue)
      requires IsNumeric(f) ==> v.PyInt?
      modifies this
      ensures Value() == Set(old(Value()), f, v)
    {
      match f
      case Nome => nome := v;
      case ReceitaAnual => receitaAnual := v.i;
      case DividaTotal => dividaTotal := v.i;
      case PrazoPagamento => prazoPagamento := v.i;
      case Setor => setor := v;
      case Rating => rating := v;
      case NoticiasRecentes => noticiasRecentes := v;
    }
  }
}
