# Trading knowledge graph — a verified Dafny model of its core

The trading assistant keeps its knowledge in an RDF graph: the `trade` ontology, market pairs and
their assets, trading strategies and the indicator configurations they use, and the indicator
values computed for a pair. This project models the non-UI core of the assistant in Dafny:

- **the fact store** (`RDFManagerTrading`, module `Store`, file `store.dfy`). The graph is a set of
  triples over IRIs and literals held in a class field. Adding a fact is set insertion. The price
  update retracts every `precioActual` fact of the pair and then adds the new one. The query wrapper
  returns `None` instead of raising. The `trade` namespace helpers build and take apart IRIs.
- **the strategy resolver** (`AgentePerfilEstrategia`, module `Strategy`, file `strategy.dfy`).
  - Defining a strategy removes every fact whose subject is the strategy, one fact at a time, then
    writes the new ones and saves.
  - Resolving a strategy evaluates the one fixed query as a set comprehension over the triples.
    `LIMIT 1` picks some group. `GROUP_CONCAT(DISTINCT …)` joins the distinct values in some order.
    The two aggregated strings are then turned into the config list and the `BASE/QUOTE` label.
- **the indicator library** (`indicadores_tecnicos.py`, module `Indicators`, file `indicators.dfy`).
  SMA, RSI, MACD and Bollinger bands are computed over exact real arithmetic. Each has the guards
  under which it returns `None`, including the cases where pandas raises (caught) or yields NaN.
- **the analysis cycle** (`AgenteSenalesTrading.ejecutar_ciclo_analisis`, module `Signals`, file
  `signals.dfy`). It:
  - resolves the strategy and fetches the close series of its pair;
  - replaces the pair's current price;
  - for every config writes four base facts about a fresh `ValorIndicador`;
  - extracts the config's parameters (with `int(obj)` / `float(obj)` conversions that may raise);
  - dispatches through the `elif` chain on the upper-cased local id and writes the value facts;
  - saves the graph.

`text.dfy` (module `Text`) models the Python string operations the core relies on:
- `strip`, `split` and `join`;
- `upper` on ASCII letters;
- `in` on substrings;
- `int(text)` and `float(text)` on decimal numerals.

`wrappers.dfy` holds `Option` and `Result`.

Methods that change the graph are proved against specification functions:
- `WithPrice` for the price update;
- `Redefined` / `StrategyFacts` for a strategy definition;
- `ConfigStep` / `Run` for the loop over the configs.

The lemmas then state what the source promises about those functions.

Two defects of the cycle are modelled as written:
- **The MACD call raises `TypeError`.** The cycle passes the keyword `periodo_senal`
  (agentes/agente_senales_trading.py:146), but `calcular_macd` declares `periodo_señal`
  (utils/indicadores_tecnicos.py:68). A config that reaches the MACD branch therefore ends the cycle
  with `TypeError`:
  - its base facts and those of the earlier configs stay in the graph;
  - the later configs are not analysed;
  - `guardar_datos` is not called (`Signals.MacdConfigRaises`, `Signals.SignalsAgent.WriteIndicatorValues`).
- **The signal-line fact is never written.** The value facts of the MACD branch read the key
  `"senal"` (agentes/agente_senales_trading.py:150), but the dictionary's key is `"señal"`.
  This code is never reached in the cycle, because of the first defect
  (`Signals.MacdSignalNeverWritten`).

Similarly, a `ValueError` from `int(obj)` / `float(obj)` during parameter extraction is not caught.
It ends the cycle the same way. A period stored as an `xsd:decimal` literal such as `"20.0"`
triggers it (`Signals.DecimalPeriodRaises`).

## Model

| member | source | states |
|---|---|---|
| Store.WithPrice | rdf_utils/rdf_manager_trading.py:128-132 | after the retract-then-add the pair has exactly one `precioActual` object, the new price literal, and every triple that is not a price of that pair is in the new graph iff it was in the old one |
| Store.RdfManager.constructor | rdf_utils/rdf_manager_trading.py:21-38 | the store starts with the facts loaded from the Turtle files and no save |
| Store.RdfManager.ExecuteSparql | rdf_utils/rdf_manager_trading.py:90-100 | the wrapper returns `None` exactly when the query fails, and the query's rows otherwise |
| Store.RdfManager.AddTriple | rdf_utils/rdf_manager_trading.py:102-109 | adding a fact is set insertion; adding a fact already present leaves the graph unchanged |
| Store.RdfManager.Remove | rdf_utils/rdf_manager_trading.py:129 | `graph.remove` with wildcards removes exactly the matching triples |
| Store.RdfManager.UpdatePairPrice | rdf_utils/rdf_manager_trading.py:120-136 | the new graph is `WithPrice` of the old one with the rendered price: a single current price, nothing else changed |
| Store.RdfManager.Save | rdf_utils/rdf_manager_trading.py:72-88 | saving counts one save and leaves the facts alone |
| Store.TradeUri | rdf_utils/rdf_manager_trading.py:155-157 | `get_uri(n)` is the `trade` namespace followed by `n`: injective (`TradeUriInjective`), and its local name is `n` (`TradeUriLocalName`) |
| Store.EntityUri | rdf_utils/rdf_manager_trading.py:111-118 | `obtener_uri(n, prefix)`: the default prefix gives `get_uri(n)`, and any prefix without `#` keeps `n` as the local name (`EntityUriLocalName`) |
| Store.PriceUpdateLastWins | rdf_utils/rdf_manager_trading.py:129-132 | two successive price updates of the same pair give the graph the second alone gives |
| Store.TradeUriInjective | rdf_utils/rdf_manager_trading.py:155-157 | `get_uri` is injective: equal `trade` IRIs come from equal local names |
| Store.TradeUriLocalName | rdf_utils/rdf_manager_trading.py:155-157 | for a local name without `#`, the text after the last `#` of `get_uri(n)` is `n` |
| Store.EntityUriLocalName | rdf_utils/rdf_manager_trading.py:111-118 | `obtener_uri(n)` with the default prefix is `get_uri(n)`, and with any prefix without `#` the IRI's local name is `n` |
| Text.Find | agentes/agente_perfil_estrategia.py:116 | the index found is an occurrence of the separator at or after the start, and no earlier one exists; -1 means none |
| Text.Split | agentes/agente_perfil_estrategia.py:116 | `str.split` always yields at least one piece |
| Text.SplitJoin | agentes/agente_perfil_estrategia.py:116 | splitting a `GROUP_CONCAT` join on a one-character separator no piece contains gives the pieces back |
| Text.LocalNameAfterHash | agentes/agente_perfil_estrategia.py:127 | `split('#')[-1]` of `base#name` is `name` when neither part has a `#` |
| Text.JoinNotBlank | agentes/agente_perfil_estrategia.py:115 | a join whose first piece starts with a non-space character passes the `.strip()` test |
| Text.IntRejectsDecimalPoint | agentes/agente_senales_trading.py:120 | `int(obj)` raises on any text containing a decimal point |
| Text.ParseInt | agentes/agente_senales_trading.py:120-123 | `int(obj)` of a literal's text: surrounding whitespace, an optional sign and ASCII digits, anything else raising; it raises on any text with a decimal point (`IntRejectsDecimalPoint`) |
| Text.ParseDecimal | agentes/agente_senales_trading.py:124 | `float(obj)` of a literal's text on decimal numerals; it agrees with `int` on every integer numeral (`DecimalAgreesWithInt`) |
| Text.DecimalAgreesWithInt | agentes/agente_senales_trading.py:120-124 | on any text `int()` accepts, `float()` gives the same number |
| Text.Truncate | agentes/agente_senales_trading.py:160 | `int(x)` of a float truncates toward zero |
| Indicators.Sma | utils/indicadores_tecnicos.py:14-29 | the SMA is present exactly when the period is positive and at most the series length |
| Indicators.GainSum | utils/indicadores_tecnicos.py:42-43 | the summed gains are never negative |
| Indicators.LossSum | utils/indicadores_tecnicos.py:42-44 | the summed losses are never negative |
| Indicators.Rsi | utils/indicadores_tecnicos.py:31-63 | an RSI is present only for a positive period with at least `period + 1` points, and it lies in [0, 100] |
| Indicators.MacdLine | utils/indicadores_tecnicos.py:79-82 | the MACD line has one value per close |
| Indicators.Macd | utils/indicadores_tecnicos.py:65-97 | MACD is present exactly when the series is non-empty, has at least `long + signal` points and all spans are at least 1; histogram = macd − signal |
| Indicators.MacdGet | utils/indicadores_tecnicos.py:90-94 | only the keys `macd`, `señal` and `histograma` are in the MACD result |
| Indicators.BandsGet | utils/indicadores_tecnicos.py:122-126 | `get` on the Bollinger result returns the entry of `media`, `superior` or `inferior`, and `None` for any other key |
| Indicators.Bollinger | utils/indicadores_tecnicos.py:99-129 | bands are present exactly when `0 <= period <= len` on a non-empty series; the outer bands exist exactly when the period is at least 2 |
| Indicators.SumBounds | utils/indicadores_tecnicos.py:25 | a window sum lies between `len·lo` and `len·hi` when every value lies in `[lo, hi]` |
| Indicators.SmaWithinWindow | utils/indicadores_tecnicos.py:25-26 | the SMA lies within the range of its window |
| Indicators.SmaConstantWindow | utils/indicadores_tecnicos.py:25-26 | a window of equal values `v` gives SMA `v` |
| Indicators.GainsMinusLosses | utils/indicadores_tecnicos.py:42-44 | total gains minus total losses is the net change over the window |
| Indicators.NoDropNoLoss | utils/indicadores_tecnicos.py:44 | a non-decreasing window has no losses |
| Indicators.NoRiseNoGain | utils/indicadores_tecnicos.py:43 | a non-increasing window has no gains |
| Indicators.RsiOnlyGains | utils/indicadores_tecnicos.py:46-50 | only gains (at least one) over the window gives RSI 100 |
| Indicators.RsiOnlyLosses | utils/indicadores_tecnicos.py:46-50 | only losses (at least one) over the window gives RSI 0 |
| Indicators.RsiFlatWindow | utils/indicadores_tecnicos.py:46-50 | a flat window gives no RSI (0/0 is NaN) |
| Indicators.EmaConstant | utils/indicadores_tecnicos.py:79-80 | the EMA of a constant series is that constant |
| Indicators.ConvexStep | utils/indicadores_tecnicos.py:79-80 | one EMA step with a factor in (0, 1] stays within `[lo, hi]` |
| Indicators.EmaWithinRange | utils/indicadores_tecnicos.py:79-80 | the EMA stays within the range of its inputs |
| Indicators.AlphaInRange | utils/indicadores_tecnicos.py:79-80 | the smoothing factor `2/(span+1)` of a span of at least 1 lies in (0, 1] |
| Indicators.MacdConstantSeries | utils/indicadores_tecnicos.py:79-94 | a constant series has MACD line, signal and histogram all 0 |
| Indicators.BollingerMediaIsSma | utils/indicadores_tecnicos.py:112-118 | the middle band is `calcular_sma` with the same period |
| Indicators.BollingerSymmetric | utils/indicadores_tecnicos.py:115-120 | superior − media = media − inferior = `num_std_dev·std` of the window, for any deviation and multiplier |
| Indicators.BollingerOrdered | utils/indicadores_tecnicos.py:115-120 | with a non-negative deviation and multiplier, inferior ≤ media ≤ superior |
| Strategy.StrategyFacts | agentes/agente_perfil_estrategia.py:41-49 | every fact written by a definition is about the strategy |
| Strategy.StrategyRows | agentes/agente_perfil_estrategia.py:66-85 | the groups of the strategy query: the strategy's name, pair, risk and horizon with the symbols of the pair's base and quote assets; a freshly defined strategy with a symbolled pair has one (`DefinedStrategyResolves`) and every group carries the written values (`DefinedRow`) |
| Strategy.Redefined | agentes/agente_perfil_estrategia.py:37-49 | after the rewrite the strategy's facts are exactly the new ones, and facts about other subjects are unchanged |
| Strategy.ConfigEntries | agentes/agente_perfil_estrategia.py:122-129 | one entry per non-blank URI piece, in the order of the pieces, blank pieces skipped; the entry for piece `k` has that URI, the text after its last `#` as local id, and as display name the name at index `k` when that name is present and non-blank, the local id otherwise |
| Strategy.GroupConcat | agentes/agente_perfil_estrategia.py:64-65 | `GROUP_CONCAT(DISTINCT …)` joins the texts of an enumeration of every distinct value exactly once |
| Strategy.BuildConfigList | agentes/agente_perfil_estrategia.py:114-129 | the list built by the loop is the config list of the two aggregated strings |
| Strategy.StrategyAgent.constructor | agentes/agente_perfil_estrategia.py:17-24 | the agent works on the shared store |
| Strategy.StrategyAgent.DefineOrUpdateStrategy | agentes/agente_perfil_estrategia.py:26-53 | returns the strategy IRI; the new graph is the old one with the strategy's facts replaced by exactly the new facts; one save |
| Strategy.StrategyAgent.RetractSubject | agentes/agente_perfil_estrategia.py:37-39 | the removal loop removes exactly the facts whose subject is the strategy |
| Strategy.StrategyAgent.AddConfigs | agentes/agente_perfil_estrategia.py:47-49 | the loop adds one `utilizaConfigIndicador` fact per listed config |
| Strategy.StrategyAgent.GetActiveStrategy | agentes/agente_perfil_estrategia.py:55-145 | `None` exactly when the query fails or finds no group; otherwise the record is built from a group of the query and enumerations of the distinct config URIs and names |
| Strategy.VocabularyDistinct | agentes/agente_perfil_estrategia.py:67-81 | the predicates the query reads are pairwise distinct |
| Strategy.ObjectsAfterRedefine | agentes/agente_perfil_estrategia.py:37-49 | after a redefinition the objects of each predicate of the strategy come from the new facts only |
| Strategy.FactObject | agentes/agente_perfil_estrategia.py:41-49 | every new fact has the object expected for its predicate |
| Strategy.ConfigFactObject | agentes/agente_perfil_estrategia.py:47-49 | a config fact's object is the IRI of a listed config |
| Strategy.CoreFactObject | agentes/agente_perfil_estrategia.py:41-45 | a core fact's object is the one written for its predicate |
| Strategy.ExpectedFact | agentes/agente_perfil_estrategia.py:41-49 | every expected object is written with its predicate |
| Strategy.DefinedObjects | agentes/agente_perfil_estrategia.py:37-49 | after a redefinition the strategy has the type, exactly one name, pair, risk and horizon, and one config fact per distinct listed config |
| Strategy.RedefineFrame | agentes/agente_perfil_estrategia.py:37-49 | facts about other subjects are unchanged; no earlier fact about the strategy survives |
| Strategy.PairSymbolsKept | agentes/agente_perfil_estrategia.py:73-76 | redefining a strategy keeps the asset symbols of its pair |
| Strategy.DefinedStrategyResolves | agentes/agente_perfil_estrategia.py:66-76 | a freshly defined strategy whose pair has symbolled base and quote assets yields at least one group |
| Strategy.DefinedConfigUriTexts | agentes/agente_perfil_estrategia.py:64 | the URI texts aggregated after a definition are exactly those of the listed configs |
| Strategy.EnumeratedMembers | agentes/agente_perfil_estrategia.py:64-65 | an enumeration lists exactly the members of the set, and is empty iff the set is |
| Strategy.DefinedRow | agentes/agente_perfil_estrategia.py:131-138 | any group of a freshly defined strategy carries the written name, pair, risk and horizon |
| Strategy.TradeTextShape | agentes/agente_perfil_estrategia.py:115-116 | a listed config URI has no `,` and is not blank |
| Strategy.ConfigListOfJoin | agentes/agente_perfil_estrategia.py:115-129 | splitting the joined enumeration of config URIs builds the entries from the enumeration itself |
| Strategy.OrderPiecesShape | agentes/agente_perfil_estrategia.py:115-116 | every enumerated config URI has no `,` and is not blank |
| Strategy.NonBlankPiecesAll | agentes/agente_perfil_estrategia.py:123 | when no piece is blank, no piece is skipped |
| Strategy.LocalNamesOfEntries | agentes/agente_perfil_estrategia.py:127 | entries whose URIs are the listed configs' URIs have exactly the listed local names |
| Strategy.ListedUrisEmpty | agentes/agente_perfil_estrategia.py:78-81 | there are no config URIs exactly when no config is listed |
| Strategy.ConfigUrisOfEnumeration | agentes/agente_perfil_estrategia.py:114-129 | the config list built from a non-empty enumeration has exactly the enumerated URIs |
| Strategy.ConfigListOfDefined | agentes/agente_perfil_estrategia.py:111-129 | the config list has exactly the listed URIs and local names, whatever the order and names; no config gives an empty list |
| Strategy.DefineThenResolve | agentes/agente_perfil_estrategia.py:26-140 | define then resolve gives back the display name, risk, horizon, pair and the set of config URIs and local names |
| Signals.LastWith | agentes/agente_senales_trading.py:117-124 | the object found comes from a row with that predicate, and there is none exactly when no row has it |
| Signals.IndicatorValueId | agentes/agente_senales_trading.py:34-39 | the local id `ValorInd_<pair>_<config>_<time>_<first four uuid characters>` (`IndicatorValueUriShape`) |
| Signals.IndicatorValueUri | agentes/agente_senales_trading.py:34-39 | the `trade` IRI of that id; different times of the same width give different IRIs (`DistinctStampsDistinctUris`) |
| Signals.ParamRows | agentes/agente_senales_trading.py:107-113 | the `(?p, ?o)` rows of the config for the five parameter predicates only (`ParamRowsOnlyConfig`), unchanged by the price update and the loop's writes (`ParamRowsUnaffected`) |
| Signals.ApplyRow | agentes/agente_senales_trading.py:118-124 | one row converts its object into its own variable, or raises `ValueError` (`ApplyRowSpec`) |
| Signals.ParamsOf | agentes/agente_senales_trading.py:117-124 | the row loop raises exactly when some row does not convert (`ParamsFailIff`); otherwise each variable holds the converted object of the last row with its predicate (`ParamsSlots`) |
| Signals.Dispatch | agentes/agente_senales_trading.py:128-173 | the first of SMA, RSI, MACD, BB whose keyword occurs in the upper-cased id and whose parameters are truthy, and nothing otherwise (`DispatchFirstMatch`, `LowerCaseRsi`) |
| Signals.ConfigStep | agentes/agente_senales_trading.py:90-173 | one config writes its base facts, then either ends the cycle with the exception or writes the dispatched value facts (`ConfigStepShape`, `MacdConfigRaises`, `ValueFactsOnlyWithValues`) |
| Signals.Run | agentes/agente_senales_trading.py:88-173 | the loop over the configs only adds facts (`RunGrows`), writes base facts for every config reached (`RunBaseFacts`) and nothing after an exception (`RunStopsAtError`) |
| Signals.CycleEffect | agentes/agente_senales_trading.py:75-175 | no market data: nothing changes; otherwise the pair's price becomes the last close (`CyclePrice`), the loop's facts are added and the graph is saved exactly when no exception escaped |
| Signals.SignalsAgent.constructor | agentes/agente_senales_trading.py:22-32 | the agent works on the shared store and the strategy agent |
| Signals.SignalsAgent.ConfigParameters | agentes/agente_senales_trading.py:107-124 | the parameters are the loop over an enumeration of the config's parameter rows; it raises `ValueError` exactly when some row does not convert |
| Signals.SignalsAgent.WriteBaseFacts | agentes/agente_senales_trading.py:95-99 | the four base facts are added and nothing else |
| Signals.SignalsAgent.WriteIndicatorValues | agentes/agente_senales_trading.py:126-173 | raises exactly when the dispatch picks MACD (then nothing is written); otherwise exactly the value facts of the chosen branch are added |
| Signals.SignalsAgent.WriteOptional | agentes/agente_senales_trading.py:162-167 | a value fact is added exactly when the value is present |
| Signals.SignalsAgent.AnalyseConfigs | agentes/agente_senales_trading.py:88-175 | the loop adds the facts of `Run` over the configs analysed, stops at the first exception, and saves exactly when every config completed |
| Signals.SignalsAgent.AnalyseNext | agentes/agente_senales_trading.py:88-173 | one turn of the loop extends the facts written so far to those of `Run` over one more config, with its parameters extracted from the config's rows |
| Signals.SignalsAgent.AnalyseConfig | agentes/agente_senales_trading.py:88-173 | one config adds its `ConfigStep` facts, with parameters extracted from the config's rows in the loaded graph |
| Signals.SignalsAgent.RunAnalysisCycle | agentes/agente_senales_trading.py:41-176 | no strategy or no data: nothing changes and nothing is saved; otherwise the price becomes the last close, the loop's facts are added, and the graph is saved exactly when no exception escaped |
| Signals.SignalsAgent.AnalysePair | agentes/agente_senales_trading.py:81-175 | the price update, then the loop over the configs from the updated graph |
| Signals.ParamVocabulary | agentes/agente_senales_trading.py:112 | the five parameter predicates are distinct, and the price predicate is not one of them |
| Signals.WrittenVocabulary | agentes/agente_senales_trading.py:96-167 | the cycle writes no parameter predicate and no price |
| Signals.ValueVocabulary | agentes/agente_senales_trading.py:131-167 | the value predicates are pairwise distinct |
| Signals.DispatchFirstMatch | agentes/agente_senales_trading.py:128-173 | dispatch takes the first of SMA, RSI, MACD, BB whose keyword and parameters both hold, and nothing when none does |
| Signals.ConfigStepShape | agentes/agente_senales_trading.py:95-173 | every fact of a config is about its value IRI, uses a written predicate and carries the cycle's timestamp |
| Signals.ValueFactsShape | agentes/agente_senales_trading.py:128-167 | value facts use only `valorNumerico` and the band predicates |
| Signals.RunSubjects | agentes/agente_senales_trading.py:88-169 | the loop writes only about the value IRIs of the configs it reached |
| Signals.BaseFactsWriteNoParams | agentes/agente_senales_trading.py:96-99 | the base facts use no parameter predicate and no price |
| Signals.RunAppend | agentes/agente_senales_trading.py:88-173 | one more config adds its step's facts to those of the earlier configs |
| Signals.ExtractedAppend | agentes/agente_senales_trading.py:101-124 | each config's parameters stay extracted from its own rows as the loop goes on |
| Signals.RunWritesNoParams | agentes/agente_senales_trading.py:88-169 | the loop never writes a parameter predicate nor a price |
| Signals.ParamRowsUnaffected | agentes/agente_senales_trading.py:107-124 | the parameter rows of a config are the same after the price update and the loop's earlier writes |
| Signals.ParamRowsOnlyConfig | agentes/agente_senales_trading.py:107-113 | extraction reads only the five parameter predicates of the config itself |
| Signals.ParseFailure | agentes/agente_senales_trading.py:117-124 | a raise during the loop comes from some row that does not convert |
| Signals.ApplyRowSpec | agentes/agente_senales_trading.py:118-124 | one row raises exactly when its object does not convert, and sets only its own variable |
| Signals.ParamsFailIff | agentes/agente_senales_trading.py:116-124 | the row loop raises exactly when some row does not convert |
| Signals.ParamsSlots | agentes/agente_senales_trading.py:116-124 | without a raise each variable holds the converted object of the last row with its predicate, or `None` |
| Signals.LastWithUnique | agentes/agente_senales_trading.py:116-124 | with one row per predicate, the row order does not matter |
| Signals.ExtractedParams | agentes/agente_senales_trading.py:101-124 | in any row order extraction raises exactly when some row does not convert; with one row per predicate each variable is that row's converted object |
| Signals.DecimalPeriodRaises | agentes/agente_senales_trading.py:120 | a period stored as a decimal literal such as `"20.0"` makes extraction raise |
| Signals.UpperKeepsKeyword | agentes/agente_senales_trading.py:128 | an upper-case keyword in the local id is found in its upper-cased form |
| Signals.LowerCaseRsi | agentes/agente_senales_trading.py:135 | keywords match case-insensitively: `rsi` selects the RSI branch |
| Signals.IndicatorValueUriShape | agentes/agente_senales_trading.py:34-39 | the value IRI's local name is `ValorInd_<pair>_<config>_<time>_<first four uuid characters>` |
| Signals.DistinctStampsDistinctUris | agentes/agente_senales_trading.py:36-39 | different times of the same width give different value IRIs |
| Signals.RunGrows | agentes/agente_senales_trading.py:88-169 | facts written by the first configs stay as the loop goes on |
| Signals.RunBaseFacts | agentes/agente_senales_trading.py:95-99 | every config reached leaves its base facts, whatever its dispatch yields |
| Signals.RunTimestamps | agentes/agente_senales_trading.py:86-99 | all values of one cycle carry the cycle's one time |
| Signals.RunStopsAtError | agentes/agente_senales_trading.py:88-175 | after an exception the later configs write nothing |
| Signals.MacdConfigRaises | agentes/agente_senales_trading.py:142-146 | a config reaching the MACD branch ends the cycle with `TypeError` after its base facts |
| Signals.ValueFactsOnlyWithValues | agentes/agente_senales_trading.py:128-167 | `valorNumerico` is written only for an SMA or RSI that yields a value, and holds it; band facts only for present Bollinger bands, holding them |
| Signals.MacdSignalNeverWritten | agentes/agente_senales_trading.py:147-153 | the `"senal"` lookup never finds a value, so no signal-line fact; line and histogram facts are written |
| Signals.CyclePrice | agentes/agente_senales_trading.py:81-82 | after the cycle the pair's only current price is the last close, and facts about other subjects are unchanged |

## Left out

- The Turtle files are not modelled: loading, binding prefixes and serialisation (`_cargar_ontologia`, `_cargar_datos`, the `graph.bind` calls). The store starts from a given set of facts.
- `Store.RdfManager.Save`: `guardar_datos` is a counter of saves; the file write, the directory creation and their failures are not modelled.
- Logging with `print` is left out throughout.
- The general SPARQL engine is not modelled. The two queries are set comprehensions (`StrategyRows`, `ParamRows`), and a query fails exactly when the IRI embedded in it is not a valid IRIREF.
- `LIMIT 1` and the order of `GROUP_CONCAT` values are left unspecified, modelled by choice. No property pairs display names with config URIs by index.
- `Strategy.StrategyAgent.GetActiveStrategy`: the check for missing keys after the query is not modelled, because every grouped variable is bound in every solution of the query.
- `Store.RdfManager.renderDecimal`: the lexical text of a float written as an `xsd:decimal` literal is left abstract, because float formatting is not modelled.
- `Indicators.Bollinger`: the rolling standard deviation is the parameter `std`. Its square root is not modelled: symmetry of the bands is proved for any `std`, their order for any non-negative `std`.
- Floating-point rounding, NaN and infinities in the input series are not modelled: arithmetic is exact real arithmetic. IEEE behaviour appears only as the RSI cases where 100 or `None` results.
- `Text.ParseInt`: `int(text)` is modelled on ASCII digits with an optional sign and surrounding whitespace. Underscores and non-ASCII digits are not modelled.
- `Text.ParseDecimal`: `float(text)` is modelled on decimal numerals only. Exponents (`2e+00`, the form in which `xsd:double` values are serialised), `inf`, `nan`, underscores and non-ASCII digits are treated as raising, where Python accepts them.
- `Text.Upper`: only ASCII letters are upper-cased.
- `obtener_datos_historicos_simulados` generates random data and is not modelled: the cycle takes the data source as the parameter `fetch`.
- `datetime.now()` and `uuid4()` are parameters of the cycle (`when`, `stampAt`, `uuidAt`) rather than clocks or random sources. The freshness of value IRIs is stated only for distinct times (`Signals.DistinctStampsDistinctUris`).
- Signal interpretation and BUY/SELL/HOLD recommendations are not modelled: the source only names them as future steps.
- The web interface (`interfaz_web_trading/`) and `run_trading.py` are not part of this model.
- `Signals.SignalsAgent.RunAnalysisCycle`: the resolver agent's store and the cycle's store are two references; the model does not require them to be the same object.
