# Credit assistant core, modelled in Dafny

This project models the core of a small credit-analysis service:

- **Ingestion (`Parses.py`).** Company records are read from CSV, JSON Lines, XML or Parquet. A dispatcher picks the reader from the lower-cased file extension.
- **Record (`Empresa.py`).** Each record is an `Empresa` dataclass with seven attributes.
- **HTTP service (`main.py`).** It loads the records once at startup. It lists them, looks them up by name, and runs a credit analysis through an external text generator. It also simulates a scenario: it copies a record, writes typed overrides into the copy, and analyses the copy.
- **Front end (`interface.py`).** Two pieces of logic are modelled: the natural-sort key of the company selector, and the override dictionary built by the simulation form.

Modules:

| module | file | contents |
|---|---|---|
| `Wrappers` | `wrappers.dfy` | `Option` and `Result` |
| `Builtins` | `builtins.dfy` | the Python built-ins the core relies on: `int()` on text, `str()`, `str.split`, `str.lower` and `str.strip` |
| `EmpresaModel` | `empresa.dfy` | `Empresa.py`: the value `Record`, the mutable class `Empresa`, and the attribute names |
| `Parses` | `parses.dfy` | `Parses.py`: row conversion, the readers' row loops as methods with invariants, and the dispatcher |
| `ParsesProperties` | `parses_properties.dfy` | what a load yields, which rows are skipped and which exceptions abort, the JSON reader's handler, record sets that agree across formats, and the repository's tests |
| `Api` | `api.dfy` | `main.py`: the three lookup endpoints, the override loop, the application state as a class, startup, and the simulation method |
| `ApiProperties` | `api_properties.dfy` | outcome of an override batch, what the copy holds, commuting overrides, the 400/404/`NameError` answers, and the scenarios |
| `Interface` | `interface.dfy` | the sort key, the sorted selector list, and the form's override dictionary |

Modelling choices:

- **I/O as parameters.** Files reach the readers already decoded, as `FileInput` values: missing, undecodable with an exception, or decoded rows. The text generator is a parameter `gerar: Record -> Result<string, string>`; a `Failure` stands for any exception it raises.
- **Values.** Values arriving from a decoder or a client are `PyValue`: a `str`, an `int` or `None`. The text attributes of a record hold whatever arrived, because dataclass annotations are not enforced. The numeric attributes always hold an `int`.
- **Behaviour worth noting.**
  - *Every reader is tolerant.* What a reader tolerates is its own set of caught exceptions. A `None` numeric cell raises `TypeError`. That aborts a CSV, JSON or XML load but is skipped by the Parquet reader.
  - *XML names keep their accents.* The XML reader's element names include `Dívida_Total` and `Notícias_Recentes`, accents and all.
  - *Overrides take the current value's class.* Each override is converted with the runtime class of the copy's current value (`int`, `str` or `NoneType`). A text attribute that holds `None` therefore refuses every override with a 400.
  - *Unknown override names fail with `NameError`.* The warning call for an unknown name uses `logging`, which `main.py` never imports, so `NameError` escapes and the request fails.
  - *Overrides use attribute names.* The keys of an override dictionary are Python attribute names such as `divida_total`.

## Model

| member | source | states |
|---|---|---|
| `Builtins.ToInt` | Parses.py:39-41 | `int()` returns an `int` unchanged. It accepts text exactly when the text, stripped, is an optional sign followed by decimal digits. Any other text raises `ValueError`, and `None` raises `TypeError`. |
| `Builtins.ParseIntOfIntToString` | Parses.py:39-41 | Every integer's decimal numeral reads back as that integer. |
| `Builtins.ParseIntIgnoresPadding` | Parses.py:39-41 | Surrounding blanks do not change what `int()` reads. |
| `Builtins.ParseIntRejectsNonDigits` | Parses.py:39-41 | Text without a digit is refused, the empty text included. |
| `Builtins.ToIntOfToStr` | main.py:131-134 | `int(str(n)) == n`, so an integer written into a text attribute can be read back. |
| `Builtins.Split` | Parses.py:185 | `split(sep)` gives at least one piece. No piece contains `sep`, and joining the pieces with `sep` gives back the input. |
| `Builtins.SplitNoSeparator` | interface.py:31 | Text without the separator splits into itself alone. |
| `Builtins.SplitAtFirst` | interface.py:31 | Splitting `a + sep + b`, where `a` has no separator, gives `a` followed by the pieces of `b`. |
| `Builtins.Lower` | Parses.py:185 | `lower()` on ASCII text: the length is kept, each ASCII capital becomes its small letter, and every other character is kept. |
| `EmpresaModel.FieldNamed` | main.py:130-131 | `hasattr`/`getattr` resolve a name exactly when it is one of the seven attribute names. |
| `EmpresaModel.FieldsInDeclarationOrder` | Empresa.py:3-11 | There are exactly seven attributes, each listed once, with their names in declaration order. |
| `EmpresaModel.DeclaredTypes` | Empresa.py:5-11 | Three attributes are declared `int` and always hold an `int`. In a well-typed record the other four hold `str`. |
| `EmpresaModel.FieldNamedAttrName` | main.py:130-131 | Each attribute's name resolves back to that attribute. |
| `EmpresaModel.GetSet` | main.py:134 | `setattr` changes the named attribute and no other. |
| `EmpresaModel.RecordEquality` | Empresa.py:3-11 | Dataclass equality holds exactly when all seven attributes are equal. |
| `EmpresaModel.SetCommutes` | main.py:134 | Writes to two different attributes commute. |
| `EmpresaModel.Empresa.constructor` | Empresa.py:3-11 | The generated `__init__` stores the seven given values. |
| `EmpresaModel.Empresa.SetAttr` | main.py:134 | After `setattr` the object holds its old value with that one attribute replaced. |
| `Parses.ConvertRow` | Parses.py:37-45 | A row yields a record exactly when all seven labels are present and the three numeric cells pass `int()`. That record carries the row's cells. The arguments are evaluated in order: a missing name label, a missing numeric label, or a numeric cell `int()` refuses gives the missing-label exception or that `int()` exception, at the first such step; after three good numerics, a missing text label gives the missing-label exception. |
| `Parses.RaisedPersists` | Parses.py:35-50 | Once an exception escapes the row loop, the outcomes of later rows change nothing. |
| `Parses.LoadRows` | Parses.py:31-55 | The row loop (append, or log and skip on a caught exception, or re-raise otherwise) computes the row-by-row meaning `Load`. |
| `Parses.CarregarDadosCsv` | Parses.py:21-55 | The CSV reader: `FileNotFoundError` re-raised, otherwise the row loop with `ValueError` and `KeyError` caught. |
| `Parses.CarregarDadosXml` | Parses.py:95-131 | The XML reader: parse errors and `FileNotFoundError` re-raised, otherwise the row loop over the underscore element names with `ValueError` and `AttributeError` caught. |
| `Parses.CarregarDadosParquet` | Parses.py:134-167 | The Parquet reader: the row loop with `ValueError`, `TypeError` and `KeyError` caught. |
| `Parses.JsonRaisedPersists` | Parses.py:71-87 | Once the JSON loop raises, later lines change nothing. |
| `Parses.CarregarDadosJson` | Parses.py:58-92 | The JSON Lines loop, including the `ValueError` handler's read of `dados`, which may be unbound, computes `JsonLoad`. |
| `Parses.CarregarDadosDeArquivo` | Parses.py:170-198 | The dispatcher computes `Carregar`: the reader chosen by the lower-cased last `.`-piece, or `ValueError`. `debug` has no effect on the result. |
| `ParsesProperties.FoldOutcome` | Parses.py:35-50 | Over any sequence of per-row outcomes, the loop completes exactly when every outcome is a record or a caught exception. It then holds the records in order and the position of every failure. Otherwise its error is the first uncaught one. |
| `ParsesProperties.LoadOutcome` | Parses.py:35-50 | A load succeeds exactly when every row converts or fails with a caught exception. It then holds the converted rows in order, and the index of every skipped row. Otherwise the error is that of the first row whose exception is not caught. |
| `ParsesProperties.SkippedRowDoesNotStopLoad` | Parses.py:35-50 | A row failing with a caught exception, between good rows, is dropped. Every good row is kept and the load continues. |
| `ParsesProperties.RowWithoutLabelIsSkipped` | Parses.py:37-50 | A row that lacks a label fails, and is tolerated by a reader catching the missing-label exception and `ValueError`, provided every `None` numeric cell comes after an absent label. |
| `ParsesProperties.MissingLabelCaughtByEveryReader` | Parses.py:47-162 | Every reader catches both its missing-label exception and `ValueError`. |
| `ParsesProperties.FoldDependsOnlyOnRaisedKinds` | Parses.py:47-50 | Two caught sets that agree on the exceptions the rows actually raise give the same load. |
| `ParsesProperties.OutcomesAppend` | Parses.py:35-46 | Rows are converted one at a time: the outcomes of two stretches of rows, concatenated, are the outcomes of their concatenation. |
| `ParsesProperties.CsvAndParquetAgreeWithoutTypeError` | Parses.py:159-162 | Without a `TypeError` row, the CSV and Parquet handlers load the same rows identically. |
| `ParsesProperties.NoneRevenueAbortsCsvSkipsParquet` | Parses.py:159-162 | A `None` revenue aborts a CSV load with `TypeError`, but the Parquet reader skips that row. |
| `ParsesProperties.JsonMatchesTableReader` | Parses.py:71-87 | On lines that each hold an object, the JSON reader is the table row loop with `ValueError` and `KeyError` caught. |
| `ParsesProperties.JsonFirstLineMalformedAborts` | Parses.py:84-85 | An undecodable first line aborts the JSON load with `UnboundLocalError`, not a skip. |
| `ParsesProperties.JsonDadosBoundAfterFirstLine` | Parses.py:73 | After any non-empty JSON load that has not aborted, `dados` has been assigned. |
| `ParsesProperties.JsonLaterMalformedLineSkipped` | Parses.py:84-85 | An undecodable line after the first is logged and skipped. |
| `ParsesProperties.ReaderLabelsDistinct` | Parses.py:38-44 | The seven labels of each reader are pairwise distinct. |
| `ParsesProperties.EncodedRowConverts` | Parses.py:37-45 | A record written out under a reader's labels converts back to that very record. |
| `ParsesProperties.EncodedTableLoads` | Parses.py:31-46 | A table of written-out records loads as exactly those records, in order, with none skipped. |
| `ParsesProperties.FormatsAgree` | Parses.py:185-196 | The same records written as CSV, JSON Lines, XML or Parquet load identically through the dispatcher. |
| `ParsesProperties.ExtensionAfterLastDot` | Parses.py:185 | The extension has no `.` and is a suffix of the lower-cased path. It is the whole path or is preceded by a `.`. |
| `ParsesProperties.ExtensionWithoutDot` | Parses.py:185 | A path without `.` is its own extension, lower-cased. |
| `ParsesProperties.ExtensionOfDottedName` | Parses.py:185 | The extension of `stem.ext`, neither part holding a `.`, is `ext` lower-cased. |
| `ParsesProperties.ExtensionOfPlainName` | Parses.py:185 | The extension of `stem.ext` is `ext`, for a lower-case `stem` and `ext` without `.`. |
| `ParsesProperties.LowerIdempotent` | Parses.py:185 | Lower-casing an already lower-cased path changes nothing. |
| `ParsesProperties.DispatchIgnoresCase` | Parses.py:185-196 | Dispatching a path and its lower-cased form gives the same outcome. |
| `ParsesProperties.UpperCaseExtension` | Parses.py:185 | `DADOS.CSV` selects the CSV reader. |
| `ParsesProperties.UnsupportedExtensionRaises` | Parses.py:197-198 | Any other extension raises `ValueError`, whatever the files contain. |
| `ParsesProperties.MissingFileRaises` | test_app.py:80-90 | A missing file with any of the four extensions raises `FileNotFoundError`. |
| `ParsesProperties.ContainerErrorRaised` | Parses.py:125-127 | A document-level decoding error escapes the XML and JSON readers unchanged. |
| `ParsesProperties.CsvFixtureLoads` | test_app.py:55-78 | The test's two-line CSV loads as its two records, with the names, revenue and sector the test expects. |
| `ParsesProperties.NonNumericRevenueSkipped` | Parses.py:47-48 | A non-numeric revenue between the fixture's two lines skips only that line, at index 1. |
| `Api.FindFirst` | main.py:81 | `next(...)` finds the first record whose name equals the requested `str`, or none at all. |
| `Api.ListarNomes` | main.py:65-71 | The listing holds every record's name, in loaded order. |
| `Api.DetalhesDe` | main.py:73-84 | Details are found exactly when some record has the name, and are then the first such record. Otherwise 404 "Empresa não encontrada". |
| `Api.AnaliseDe` | main.py:86-105 | 404 exactly when the name is absent. Otherwise the generator's text for the first match, or 500 with the error message. |
| `Api.Convert` | main.py:131-136 | `type(current)(value)` produces the current class. `str` always succeeds; `int` succeeds exactly when `int()` accepts the value; `NoneType` fails. Every failure is a `ValueError` or `TypeError`. |
| `Api.Step` | main.py:130-138 | One override keeps every attribute's class, sets the named attribute to the converted value, and keeps all others. It fails as an unknown name exactly when no attribute has that name. It fails as an invalid value exactly when the conversion fails. |
| `Api.SimulacaoDe` | main.py:118-146 | 404 exactly when the name is absent. A refused value gives 400 with the field and value. An unknown name fails with `NameError`. Otherwise the generator's text on the copy, echoing the overrides, or 500. |
| `Api.CaminhoDadosIsCsv` | main.py:52-53 | The startup path selects the CSV reader. |
| `Api.Instanciar` | Parses.py:37-46 | One new `Empresa` object per loaded record, holding it, in order. |
| `Api.App.Startup` | main.py:45-57 | After startup the application holds the CSV reader's records as new objects, or no records if the load raised. |
| `Api.App.SimularCenario` | main.py:107-146 | The endpoint deep-copies, writes each override into the copy with `setattr`, and analyses the copy. Its answer is `SimulacaoDe` of the loaded records, and the loaded records are unchanged. |
| `ApiProperties.AplicarOutcome` | main.py:129-138 | A batch of overrides goes through exactly when every override is accepted on the original record. Otherwise it fails with the refusal of the first one that is not. Attribute classes never change. |
| `ApiProperties.AplicarAppend` | main.py:129-138 | Applying two batches in turn is applying their concatenation. |
| `ApiProperties.UnnamedFieldsKept` | main.py:124-138 | An attribute that no override names keeps the original's value in the copy. |
| `ApiProperties.EmptyOverridesCopyEqualsOriginal` | main.py:124 | With no overrides the copy equals the original in all seven attributes. |
| `ApiProperties.NamedFieldConverted` | main.py:129-134 | The last override naming an attribute decides its value: the override converted to the attribute's original class. |
| `ApiProperties.DistinctOverridesCommute` | main.py:129-134 | Swapping overrides of two different attributes does not change whether the batch succeeds, nor the resulting copy. |
| `ApiProperties.RefusedValueGives400` | main.py:135-136 | The first refused value gives 400 naming its field, whatever the generator. |
| `ApiProperties.NonIntegerDebtGives400` | main.py:131-136 | `"abc"` for `divida_total` gives 400 "Valor inválido para o campo 'divida_total': abc". |
| `ApiProperties.NonNumeralDebtGives400` | main.py:131-136 | Any text that `int()` refuses, sent for `divida_total`, gives 400 naming the field and the text. |
| `ApiProperties.UnknownFieldEscapes` | main.py:137-138 | An override naming no attribute ends the request with `NameError`. |
| `ApiProperties.SimulationEchoesOverrides` | main.py:141-143 | A successful simulation echoes the company name and the overrides as sent. Its text is the generator's on the copy, which differs from the original only where overrides name attributes. |
| `ApiProperties.EmptySimulationIsPlainAnalysis` | main.py:141-146 | With no overrides, the simulation succeeds exactly when the plain analysis does, with the same text. |
| `ApiProperties.WellTypedOverridesApply` | main.py:129-136 | On a well-typed record, overrides that name attributes always go through when each numeric override holds an integer or an integer numeral. |
| `ApiProperties.ListedNamesResolve` | main.py:70-81 | Every listed name can be looked up. The lookup finds that record or an earlier one with the same name. |
| `ApiProperties.UnknownNameIs404` | main.py:81-83 | An absent name gives 404 from details, analysis and simulation alike. |
| `ApiProperties.DetailsEndpointScenarios` | test_app.py:94-131 | With the one record the tests store in the application state, "Empresa Teste Sucesso" is returned with rating "A", and "Empresa Fantasma" gives 404. |
| `ApiProperties.DebtOverride` | main.py:129-134 | Overriding `divida_total` with any `int` on any record succeeds and changes that attribute alone. |
| `ApiProperties.AcmeScenario` | main.py:118-134 | The one-line Acme CSV loads as exactly the Acme record. Overriding `divida_total` with 90000 yields a copy that differs only there. |
| `Interface.ChaveOfSecondToken` | interface.py:30-34 | The key is `int()` of the second space-separated token, or `Inf` when `int()` refuses it. |
| `Interface.ChaveOfNumberedName` | interface.py:18-32 | `"<word> <n>"` has key `n`, for every integer `n`. |
| `Interface.NameWithoutSpaceLast` | interface.py:31-34 | A name without a space (`IndexError`) has key `Inf`. |
| `Interface.NonNumericTokenLast` | interface.py:31-34 | A second token without digits (`ValueError`) gives key `Inf`. |
| `Interface.MalformedNamesLast` | interface.py:27-34 | "Empresa", "Empresa X" and "Empresa  3" (double space) all have key `Inf`. |
| `Interface.DocumentedKeys` | interface.py:20-21 | "Empresa 10" has key 10 and "Empresa 2" key 2. |
| `Interface.InserirPor` | interface.py:53 | Insertion adds exactly the one name. |
| `Interface.OrdenarPor` | interface.py:53 | Sorting keeps exactly the same names, each as often. |
| `Interface.OrdenarPorSortsAndPermutes` | interface.py:53 | `sorted(key=...)` is a permutation of its input, in ascending key order. |
| `Interface.OrdenarNomesSortsAndPermutes` | interface.py:53 | The selector shows the backend's names, each as often as sent, sorted by the numeric key. |
| `Interface.UnnumberedNamesLast` | interface.py:27-34 | In the sorted list, every name with key `Inf` comes after every numbered name. |
| `Interface.NaturalOrder` | interface.py:20-21 | "Empresa 2" is shown before "Empresa 10". |
| `Interface.MontarAlteracoes` | interface.py:121-125 | The form's dictionary holds exactly the inputs that are not `None`, under `receita_anual`, `divida_total`, `prazo_pagamento` and `rating`, with the entered values. Each key appears at most once, in that order. The dictionary is empty exactly when all inputs are `None`. |
| `Interface.FormularioValor` | interface.py:121-125 | Looking up an attribute in the dictionary the four conditional inserts build finds that attribute's input. The three attributes the form does not offer are never found. |
| `Interface.Inserted` | interface.py:122-125 | Each conditional insert adds its entry and leaves the other keys' values as they were. |
| `Interface.Submeter` | interface.py:127-130 | An empty dictionary gives a warning and no request. Otherwise a request for the selected company carries the dictionary. |
| `Interface.FormOverridesApply` | interface.py:121-125 | Whatever the form sends is accepted for a well-typed record, and the copy holds each entered value. |
| `Interface.FormRequestNeverRefused` | interface.py:127-132 | A form request about a well-typed company is answered with an analysis or a 500, never a 400 or `NameError`. |

## Left out

- The text generator in `GeminiAPI.py` is not part of this model. It is the parameter `gerar`, and an exception it raises is its `Failure`.
- FastAPI is not modelled:
  - routing, CORS and JSON serialisation;
  - the payload validation done by pydantic;
  - an uncaught exception becoming a 500, which the model leaves as `Unhandled`.
- The Streamlit rendering, the `requests` calls and the session state in interface.py are not modelled, apart from the sort key, the sort and the override dictionary.
- Logging and `print` are not modelled. The loaded result records the positions of the skipped rows instead.
- The decoding libraries are not modelled: the `csv` module, `json.loads`, ElementTree and pandas supply their output as parameters. A container error is modelled as raised before any row, so rows read before a mid-file decoding error are not modelled.
- Floating point is not modelled:
  - `st.number_input` yields floats, and `int(float)` truncates;
  - JSON and Parquet numeric cells may be floats or NumPy integers;
  - `float('inf')` is the sentinel `Key.Inf`.
- Only ASCII `int()` is modelled. Underscores between digits, Unicode digits and Unicode whitespace are not.
- `Lower` models ASCII `str.lower()` only. Python lowers non-ASCII capitals too, and can change the length (`'İ'` lowers to two characters). The four recognised extensions are ASCII. The only non-ASCII capital that Python lowers to an ASCII letter is the Kelvin sign, which becomes `k`, and no extension contains `k`. So the reader chosen is the same.
- Boolean, list and dictionary values are not modelled. `PyValue` has only `str`, `int` and `None`. Python treats the others as follows:
  - For JSON cells (Parses.py:73-81), a `true` revenue passes `int()` as 1 and the line loads. A `[1]` revenue raises `TypeError` and aborts the load.
  - For override values (main.py:129-134), `true` for `divida_total` is written as 1 and answered normally. `true` for `rating` is written as the text `"True"`. `[1]` for `divida_total` raises `TypeError` and is answered with 400.
- `hasattr` is modelled for the seven declared attributes only. Names such as `__class__` would also resolve in Python.
- The `__main__` block of Parses.py (lines 201-223) is a local smoke test and is not modelled.
- Object identity of reader results is not modelled. The readers return record values, and `Api.App.Startup` creates one object per record.
- `copy.deepcopy` is modelled as a fresh object holding the same value. This is equivalent here because every attribute value is an immutable `str`, `int` or `None`.
- The selector's names are modelled as text. A non-`str` name would make the sort key raise `AttributeError`.
- `Interface.OrdenarPor`, `Interface.OrdenarPorSortsAndPermutes` and `Interface.OrdenarNomesSortsAndPermutes`: `sorted()` is stable, and so is the insertion sort, but stability is not stated as a contract. Order and permutation are stated.
- `ParsesProperties.MissingFileRaises` covers the test's path `caminho/que/nao/existe/fakefile.csv` through its general stem-and-extension form. The literal path itself is not stated.
- Concurrency is not modelled. FastAPI runs these plain `def` endpoints in a thread pool, so requests may overlap. After startup, which runs before any request, no endpoint writes the application state. The simulation writes only into its own deep copy. So overlapping requests cannot observe each other.
