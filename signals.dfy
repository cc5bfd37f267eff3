/**
 * The analysis cycle (`agentes/agente_senales_trading.py`): resolve the strategy, fetch the close
 * series of its pair, replace the pair's current price, and for every config of the strategy write a
 * fresh `ValorIndicador` with its four base facts, read the config's parameters, dispatch on the
 * config's local id and write the indicator's values.
 */
module Signals {
  import opened Wrappers
  import opened Text
  import opened Store
  import opened Indicators
  import opened Strategy

  const VALUE_ERROR := "ValueError"
  const TYPE_ERROR := "TypeError"

  // The identifier of an indicator value

  const VALUE_ID_PREFIX := "ValorInd_"

  /**
   * The local id `_crear_uri_valor_indicador` builds; `stamp` is the UTC time written as
   * `%Y%m%d%H%M%S%f` and `uuid` the text of a fresh UUID, of which the first four characters are kept.
   */
  function IndicatorValueId(pairLocal: string, cfgLocal: string, stamp: string, uuid: string): string {
    VALUE_ID_PREFIX + pairLocal + "_" + cfgLocal + "_" + stamp + "_" + Take(uuid, 4)
  }

  /** `_crear_uri_valor_indicador`: the `trade` IRI of the local id. */
  function IndicatorValueUri(pairLocal: string, cfgLocal: string, stamp: string, uuid: string): Term {
    TradeUri(IndicatorValueId(pairLocal, cfgLocal, stamp, uuid))
  }

  // Parameters of a config

  /** A `(?p, ?o)` row of the parameter query. */
  type ParamRow = (Term, Term)

  /** The predicates the parameter query keeps (its `FILTER (?p IN (...))`). */
  predicate IsParamPredicate(p: Term) {
    || p == PERIODO_INDICADOR || p == PERIODO_CORTO || p == PERIODO_LARGO || p == PERIODO_SENAL
    || p == DESVIACION_ESTANDAR
  }

  /** The rows of the parameter query for the config `cfg`. */
  function ParamRows(g: set<Triple>, cfg: Term): set<ParamRow> {
    set t | t in g && t.s == cfg && IsParamPredicate(t.p) :: (t.p, t.o)
  }

  /** The parameter query; it does not parse when the config IRI cannot be written as an IRIREF. */
  function ParamQuery(cfg: Term, g: set<Triple>): Result<set<ParamRow>, string> {
    if ValidIriRef(Lexical(cfg)) then Ok(ParamRows(g, cfg)) else Err("malformed query")
  }

  /** The rows the loop over `res_params` sees: none when the query failed. */
  function FoundParamRows(g: set<Triple>, cfg: Term): set<ParamRow> {
    match ParamQuery(cfg, g)
    case Ok(rows) => rows
    case Err(_) => {}
  }

  /** The five local variables the cycle fills from the parameter rows. */
  datatype Params = Params(period: Option<int>, short: Option<int>, long: Option<int>, signal: Option<int>,
                           stdDev: Option<real>)

  const NO_PARAMS := Params(None, None, None, None, None)

  /** One step of the loop over the parameter rows: `int(obj)` or `float(obj)` into the matching variable. */
  function ApplyRow(p: Params, row: ParamRow): Result<Params, string> {
    var (pred, obj) := row;
    if pred == PERIODO_INDICADOR then
      match ParseInt(Lexical(obj)) case Some(v) => Ok(p.(period := Some(v))) case None => Err(VALUE_ERROR)
    else if pred == PERIODO_CORTO then
      match ParseInt(Lexical(obj)) case Some(v) => Ok(p.(short := Some(v))) case None => Err(VALUE_ERROR)
    else if pred == PERIODO_LARGO then
      match ParseInt(Lexical(obj)) case Some(v) => Ok(p.(long := Some(v))) case None => Err(VALUE_ERROR)
    else if pred == PERIODO_SENAL then
      match ParseInt(Lexical(obj)) case Some(v) => Ok(p.(signal := Some(v))) case None => Err(VALUE_ERROR)
    else if pred == DESVIACION_ESTANDAR then
      match ParseDecimal(Lexical(obj)) case Some(v) => Ok(p.(stdDev := Some(v))) case None => Err(VALUE_ERROR)
    else Ok(p)
  }

  /** The rows processed in `order`, the first conversion that raises ending the loop. */
  function ParamsOf(order: seq<ParamRow>): Result<Params, string>
    decreases |order|
  {
    if |order| == 0 then Ok(NO_PARAMS)
    else
      match ParamsOf(order[..|order| - 1])
      case Err(e) => Err(e)
      case Ok(p) => ApplyRow(p, order[|order| - 1])
  }

  /** The object of a row converts: integer periods, a decimal deviation, anything for other predicates. */
  predicate Parses(row: ParamRow) {
    if row.0 == DESVIACION_ESTANDAR then ParseDecimal(Lexical(row.1)).Some?
    else if IsParamPredicate(row.0) then ParseInt(Lexical(row.1)).Some?
    else true
  }

  /** The object of the last row of `order` whose predicate is `pred`. */
  function LastWith(order: seq<ParamRow>, pred: Term): (o: Option<Term>)
    ensures o.Some? ==> (pred, o.value) in order
    ensures o.None? <==> forall k | 0 <= k < |order| :: order[k].0 != pred
    decreases |order|
  {
    if |order| == 0 then None
    else if order[|order| - 1].0 == pred then Some(order[|order| - 1].1)
    else LastWith(order[..|order| - 1], pred)
  }

  function IntSlot(order: seq<ParamRow>, pred: Term): Option<int> {
    match LastWith(order, pred)
    case None => None
    case Some(o) => ParseInt(Lexical(o))
  }

  function DecimalSlot(order: seq<ParamRow>, pred: Term): Option<real> {
    match LastWith(order, pred)
    case None => None
    case Some(o) => ParseDecimal(Lexical(o))
  }

  /**
   * `r` is what the loop over the rows yields for some order the engine may return them in: the rows
   * seen are some of the rows, and all of them when no conversion raised.
   */
  ghost predicate Extracted(r: Result<Params, string>, rows: set<ParamRow>) {
    exists order: seq<ParamRow> ::
      && multiset(order) <= multiset(rows)
      && (r.Ok? ==> Enumerates(order, rows))
      && r == ParamsOf(order)
  }

  /** No two rows share a predicate: the usual case of one value per parameter. */
  predicate SingleValued(rows: set<ParamRow>) {
    forall a, b | a in rows && b in rows && a.0 == b.0 :: a == b
  }

  /** The object of the row with predicate `pred`, if any (the only one when the rows are single-valued). */
  ghost function ObjectIn(rows: set<ParamRow>, pred: Term): Option<Term> {
    if exists row :: row in rows && row.0 == pred then
      var row :| row in rows && row.0 == pred;
      Some(row.1)
    else None
  }

  // Dispatch

  datatype Indicator = SmaIndicator | RsiIndicator | MacdIndicator | BollingerIndicator | Unrecognised

  /** The branches of the `elif` chain, in the order they are tried. */
  const BRANCHES := [SmaIndicator, RsiIndicator, MacdIndicator, BollingerIndicator]

  function Keyword(ind: Indicator): string {
    match ind
    case SmaIndicator => "SMA"
    case RsiIndicator => "RSI"
    case MacdIndicator => "MACD"
    case BollingerIndicator => "BB"
    case Unrecognised => ""
  }

  /** Python truthiness of an optional number: present and not zero. */
  predicate Truthy(x: Option<int>) {
    x.Some? && x.value != 0
  }

  predicate TruthyReal(x: Option<real>) {
    x.Some? && x.value != 0.0
  }

  /** The parameters each indicator needs. */
  predicate Ready(ind: Indicator, p: Params) {
    match ind
    case SmaIndicator => Truthy(p.period)
    case RsiIndicator => Truthy(p.period)
    case MacdIndicator => Truthy(p.short) && Truthy(p.long) && Truthy(p.signal)
    case BollingerIndicator => Truthy(p.period) && TruthyReal(p.stdDev)
    case Unrecognised => false
  }

  /** A branch applies when its keyword occurs in the upper-cased local id and its parameters are ready. */
  predicate Applies(ind: Indicator, localId: string, p: Params) {
    Contains(Upper(localId), Keyword(ind)) && Ready(ind, p)
  }

  /** The `elif` chain on the config's local id (see `DispatchFirstMatch`). */
  function Dispatch(localId: string, p: Params): Indicator {
    var upper := Upper(localId);
    if Contains(upper, "SMA") && Truthy(p.period) then SmaIndicator
    else if Contains(upper, "RSI") && Truthy(p.period) then RsiIndicator
    else if Contains(upper, "MACD") && Truthy(p.short) && Truthy(p.long) && Truthy(p.signal) then MacdIndicator
    else if Contains(upper, "BB") && Truthy(p.period) && TruthyReal(p.stdDev) then BollingerIndicator
    else Unrecognised
  }

  // Facts of one config

  /** The parts of the cycle fixed before the loop over the configs starts. */
  datatype Cycle = Cycle(
    pair: Term, pairLocal: string, when: string, closes: seq<real>,
    std: seq<real> -> real, render: real -> string, stampAt: nat -> string, uuidAt: nat -> string)

  /** The value IRI made for the `i`-th config. */
  function ValueUri(c: Cycle, i: nat, entry: ConfigEntry): Term {
    IndicatorValueUri(c.pairLocal, entry.localName, c.stampAt(i), c.uuidAt(i))
  }

  /** The four facts written about a value before its parameters are read. */
  function BaseFacts(v: Term, cfg: Term, pair: Term, when: string): set<Triple> {
    {
      Triple(v, RDF_TYPE, VALOR_INDICADOR),
      Triple(v, ES_VALOR_DE, cfg),
      Triple(v, SE_APLICA_A, pair),
      Triple(v, TIMESTAMP_VALOR, Lit(when, XSD_DATETIME, ""))
    }
  }

  /** The fact `(v, pred, x)` as an xsd:decimal, written only when `x` is present. */
  function OptionalFact(v: Term, pred: Term, x: Option<real>, render: real -> string): set<Triple> {
    match x
    case None => {}
    case Some(value) => {Triple(v, pred, DecimalLiteral(render(value)))}
  }

  function BandFacts(v: Term, b: Bands, render: real -> string): set<Triple> {
    OptionalFact(v, VALOR_BANDA_MEDIA, BandsGet(b, "media"), render)
      + OptionalFact(v, VALOR_BANDA_SUPERIOR, BandsGet(b, "superior"), render)
      + OptionalFact(v, VALOR_BANDA_INFERIOR, BandsGet(b, "inferior"), render)
  }

  /**
   * The facts the MACD branch would write from a result, reading the keys `"macd"`, `"senal"` and
   * `"histograma"`; the cycle never gets this far, because the call itself raises.
   */
  function MacdValueFacts(v: Term, r: MacdReading, render: real -> string): set<Triple> {
    OptionalFact(v, VALOR_MACD, MacdGet(r, "macd"), render)
      + OptionalFact(v, VALOR_SENAL_MACD, MacdGet(r, "senal"), render)
      + OptionalFact(v, VALOR_HISTOGRAMA_MACD, MacdGet(r, "histograma"), render)
  }

  /** The value facts of the SMA, RSI and Bollinger branches (the other outcomes write none). */
  function ValueFacts(v: Term, ind: Indicator, p: Params, c: Cycle): set<Triple>
    requires ind == Unrecognised || Ready(ind, p)
  {
    match ind
    case SmaIndicator => OptionalFact(v, VALOR_NUMERICO, Sma(c.closes, p.period.value), c.render)
    case RsiIndicator => OptionalFact(v, VALOR_NUMERICO, Rsi(c.closes, p.period.value), c.render)
    case BollingerIndicator =>
      (match Bollinger(c.std, c.closes, p.period.value, Truncate(p.stdDev.value))
       case None => {}
       case Some(b) => BandFacts(v, b, c.render))
    case _ => {}
  }

  /** Facts written so far and the exception that ended the cycle, if any. */
  datatype Step = Step(facts: set<Triple>, error: Option<string>)

  /** The body of the loop for the `i`-th config, given what its parameter loop yielded. */
  function ConfigStep(c: Cycle, i: nat, entry: ConfigEntry, params: Result<Params, string>): Step {
    var v := ValueUri(c, i, entry);
    var base := BaseFacts(v, Iri(entry.uri), c.pair, c.when);
    match params
    case Err(e) => Step(base, Some(e))
    case Ok(p) =>
      var ind := Dispatch(entry.localName, p);
      if ind == MacdIndicator then Step(base, Some(TYPE_ERROR))
      else Step(base + ValueFacts(v, ind, p, c), None)
  }

  /** The loop over the first `|params|` configs, stopping at the first exception. */
  function Run(c: Cycle, entries: seq<ConfigEntry>, params: seq<Result<Params, string>>): Step
    requires |params| <= |entries|
    decreases |params|
  {
    if |params| == 0 then Step({}, None)
    else
      var i := |params| - 1;
      var prev := Run(c, entries, params[..i]);
      if prev.error.Some? then prev
      else
        var step := ConfigStep(c, i, entries[i], params[i]);
        Step(prev.facts + step.facts, step.error)
  }

  /** The record is what `obtener_estrategia_activa` may return for the strategy in `g`. */
  ghost predicate Resolves(g: set<Triple>, localName: string, rec: StrategyRecord) {
    var s := TradeUri(localName);
    exists row: Row, uriOrder: seq<string>, nameOrder: seq<Term> ::
      && row in StrategyRows(g, s)
      && Enumerates(uriOrder, ConfigUriTexts(g, s))
      && Enumerates(nameOrder, ConfigNameTerms(g, s))
      && rec == Resolved(localName, row, Join(uriOrder, ","), Join(Texts(nameOrder, Lexical), "||"))
  }

  /**
   * What a cycle that resolved `rec` does to the store (graph `g`, save count `saves`): without market
   * data nothing; otherwise the pair's price is replaced by the last close and the loop's facts are
   * added, with one save when no exception ended the loop.
   */
  ghost predicate CycleEffect(g: set<Triple>, saves: nat, g': set<Triple>, saves': nat, outcome: Outcome,
                              rec: StrategyRecord, params: seq<Result<Params, string>>,
                              fetch: string -> Option<seq<real>>, when: string, stampAt: nat -> string,
                              uuidAt: nat -> string, std: seq<real> -> real, render: real -> string)
  {
    var data := fetch(rec.pairLabel);
    if data.None? || data.value == [] then
      outcome == NoMarketData && g' == g && saves' == saves
    else
      var closes := data.value;
      LoopEffect(g, WithPrice(g, Iri(rec.pairUri), render(closes[|closes| - 1])), saves, g', saves', outcome,
                 CycleOf(rec, closes, when, stampAt, uuidAt, std, render), rec.configs, params)
  }

  /** The cycle's inputs once `rec` is resolved and `closes` fetched for its pair. */
  function CycleOf(rec: StrategyRecord, closes: seq<real>, when: string, stampAt: nat -> string,
                   uuidAt: nat -> string, std: seq<real> -> real, render: real -> string): Cycle
  {
    Cycle(Iri(rec.pairUri), LocalName(rec.pairUri), when, closes, std, render, stampAt, uuidAt)
  }

  /** Each config analysed so far had its parameters extracted from its own rows in `g0`. */
  ghost predicate AllExtracted(g0: set<Triple>, configs: seq<ConfigEntry>, params: seq<Result<Params, string>>)
    requires |params| <= |configs|
  {
    forall k | 0 <= k < |params| :: Extracted(params[k], FoundParamRows(g0, Iri(configs[k].uri)))
  }

  /**
   * What the loop over the configs does, starting from graph `g` (the loaded facts `g0` after the
   * price update): the loop ends normally or by an exception, one parameter extraction per config
   * analysed, the facts of `Run` added, one save when the loop completed.
   */
  ghost predicate LoopEffect(g0: set<Triple>, g: set<Triple>, saves: nat, g': set<Triple>, saves': nat,
                             outcome: Outcome, c: Cycle, configs: seq<ConfigEntry>,
                             params: seq<Result<Params, string>>)
  {
    && (outcome == Completed || outcome.Raised?)
    && |params| <= |configs|
    && AllExtracted(g0, configs, params)
    && g' == g + Run(c, configs, params).facts
    && (outcome == Completed ==> |params| == |configs| && Run(c, configs, params).error.None?)
    && (outcome.Raised? ==> Run(c, configs, params).error == Some(outcome.error))
    && saves' == saves + (if outcome == Completed then 1 else 0)
  }

  lemma NoMarketDataEffect(g: set<Triple>, saves: nat, rec: StrategyRecord, params: seq<Result<Params, string>>,
                           fetch: string -> Option<seq<real>>, when: string, stampAt: nat -> string,
                           uuidAt: nat -> string, std: seq<real> -> real, render: real -> string)
    requires fetch(rec.pairLabel).None? || fetch(rec.pairLabel).value == []
    ensures CycleEffect(g, saves, g, saves, NoMarketData, rec, params, fetch, when, stampAt, uuidAt, std, render)
  {
  }

  lemma PairEffect(g: set<Triple>, saves: nat, g': set<Triple>, saves': nat, outcome: Outcome,
                   rec: StrategyRecord, params: seq<Result<Params, string>>,
                   fetch: string -> Option<seq<real>>, closes: seq<real>, when: string, stampAt: nat -> string,
                   uuidAt: nat -> string, std: seq<real> -> real, render: real -> string)
    requires fetch(rec.pairLabel) == Some(closes) && closes != []
    requires LoopEffect(g, WithPrice(g, Iri(rec.pairUri), render(closes[|closes| - 1])), saves, g', saves', outcome,
                        CycleOf(rec, closes, when, stampAt, uuidAt, std, render), rec.configs, params)
    ensures CycleEffect(g, saves, g', saves', outcome, rec, params, fetch, when, stampAt, uuidAt, std, render)
  {
  }

  /** The loop ended by the exception `e` of its last config: no save. */
  lemma LoopRaised(g0: set<Triple>, g: set<Triple>, saves: nat, g': set<Triple>, c: Cycle,
                   configs: seq<ConfigEntry>, params: seq<Result<Params, string>>, e: string)
    requires |params| <= |configs|
    requires AllExtracted(g0, configs, params)
    requires g' == g + Run(c, configs, params).facts
    requires Run(c, configs, params).error == Some(e)
    ensures LoopEffect(g0, g, saves, g', saves, Raised(e), c, configs, params)
  {
  }

  /** The loop went through every config without an exception: one save. */
  lemma LoopCompleted(g0: set<Triple>, g: set<Triple>, saves: nat, g': set<Triple>, c: Cycle,
                      configs: seq<ConfigEntry>, params: seq<Result<Params, string>>)
    requires |params| == |configs|
    requires AllExtracted(g0, configs, params)
    requires g' == g + Run(c, configs, params).facts
    requires Run(c, configs, params).error.None?
    ensures LoopEffect(g0, g, saves, g', saves + 1, Completed, c, configs, params)
  {
  }

  /** How a cycle ends: one of the two early returns, the end of the loop, or an exception. */
  datatype Outcome = StrategyNotFound | NoMarketData | Completed | Raised(error: string)

  /** `AgenteSenalesTrading`. */
  class SignalsAgent {
    const store: RdfManager
    const strategies: StrategyAgent

    constructor (store: RdfManager, strategies: StrategyAgent)
      ensures this.store == store && this.strategies == strategies
    {
      this.store := store;
      this.strategies := strategies;
    }

    /** The parameter query of one config and the loop over its rows. */
    method ConfigParameters(cfg: Term) returns (r: Result<Params, string>, ghost order: seq<ParamRow>)
      ensures multiset(order) <= multiset(FoundParamRows(store.graph, cfg))
      ensures r.Ok? ==> Enumerates(order, FoundParamRows(store.graph, cfg))
      ensures r == ParamsOf(order)
      ensures r.Err? <==> exists row | row in FoundParamRows(store.graph, cfg) :: !Parses(row)
    {
      var res := store.ExecuteSparql(g => ParamQuery(cfg, g));
      ghost var rows := FoundParamRows(store.graph, cfg);
      var rest := if res.Some? then res.value else {};
      var p := NO_PARAMS;
      order := [];
      while rest != {}
        invariant rest <= rows
        invariant multiset(order) + multiset(rest) == multiset(rows)
        invariant ParamsOf(order) == Ok(p)
        decreases rest
      {
        var row :| row in rest;
        assert (order + [row])[..|order|] == order;
        order := order + [row];
        var next := ApplyRow(p, row);
        if next.Err? {
          r := next;
          ParseFailure(order, rows);
          return;
        }
        p := next.value;
        rest := rest - {row};
      }
      r := Ok(p);
      EnumeratedMembers(order, rows);
      ParamsFailIff(order);
    }

    /** The four `agregar_tripleta` calls about a new value, before its parameters are read. */
    method WriteBaseFacts(v: Term, cfg: Term, pair: Term, when: string)
      modifies store`graph
      ensures store.graph == old(store.graph) + BaseFacts(v, cfg, pair, when)
    {
      store.AddTriple(Triple(v, RDF_TYPE, VALOR_INDICADOR));
      store.AddTriple(Triple(v, ES_VALOR_DE, cfg));
      store.AddTriple(Triple(v, SE_APLICA_A, pair));
      store.AddTriple(Triple(v, TIMESTAMP_VALOR, Lit(when, XSD_DATETIME, "")));
    }

    /**
     * The `elif` chain of one config and the value facts of the branch taken; `raised` when the branch
     * is MACD, whose call passes the keyword `periodo_senal` that `calcular_macd` does not declare.
     */
    method WriteIndicatorValues(v: Term, localId: string, p: Params, c: Cycle) returns (raised: bool)
      requires c.render == store.renderDecimal
      modifies store`graph
      ensures raised <==> Dispatch(localId, p) == MacdIndicator
      ensures raised ==> store.graph == old(store.graph)
      ensures !raised ==> store.graph == old(store.graph) + ValueFacts(v, Dispatch(localId, p), p, c)
    {
      raised := false;
      var upper := Upper(localId);
      if Contains(upper, "SMA") && Truthy(p.period) {
        WriteOptional(v, VALOR_NUMERICO, Sma(c.closes, p.period.value));
      } else if Contains(upper, "RSI") && Truthy(p.period) {
        WriteOptional(v, VALOR_NUMERICO, Rsi(c.closes, p.period.value));
      } else if Contains(upper, "MACD") && Truthy(p.short) && Truthy(p.long) && Truthy(p.signal) {
        raised := true;
      } else if Contains(upper, "BB") && Truthy(p.period) && TruthyReal(p.stdDev) {
        var bands := Bollinger(c.std, c.closes, p.period.value, Truncate(p.stdDev.value));
        if bands.Some? {
          var b := bands.value;
          WriteOptional(v, VALOR_BANDA_MEDIA, BandsGet(b, "media"));
          WriteOptional(v, VALOR_BANDA_SUPERIOR, BandsGet(b, "superior"));
          WriteOptional(v, VALOR_BANDA_INFERIOR, BandsGet(b, "inferior"));
        }
      }
    }

    /** `if x is not None: agregar_tripleta(v, pred, Literal(x, datatype=XSD.decimal))`. */
    method WriteOptional(v: Term, pred: Term, x: Option<real>)
      modifies store`graph
      ensures store.graph == old(store.graph) + OptionalFact(v, pred, x, store.renderDecimal)
    {
      if x.Some? {
        store.AddTriple(Triple(v, pred, DecimalLiteral(store.renderDecimal(x.value))));
      }
    }

    /**
     * The loop over the configs and the final save, starting from the graph the price update left
     * (`g0` is the graph before it). An exception ends the loop and skips the save.
     */
    method AnalyseConfigs(c: Cycle, configs: seq<ConfigEntry>, ghost g0: set<Triple>, ghost price: string)
      returns (outcome: Outcome, ghost params: seq<Result<Params, string>>)
      requires c.render == store.renderDecimal
      requires store.graph == WithPrice(g0, c.pair, price)
      modifies store
      ensures LoopEffect(g0, old(store.graph), old(store.saves), store.graph, store.saves, outcome, c, configs, params)
    {
      params := [];
      var i := 0;
      while i < |configs|
        invariant 0 <= i <= |configs| && |params| == i
        invariant store.graph == old(store.graph) + Run(c, configs, params).facts
        invariant Run(c, configs, params).error.None?
        invariant AllExtracted(g0, configs, params)
        invariant store.saves == old(store.saves)
      {
        var result, error := AnalyseNext(c, configs, i, g0, price, old(store.graph), params);
        ExtractedAppend(g0, configs, params, result);
        params := params + [result];
        if error.Some? {
          outcome := Raised(error.value);
          LoopRaised(g0, old(store.graph), old(store.saves), store.graph, c, configs, params, error.value);
          return;
        }
        i := i + 1;
      }
      store.Save();
      outcome := Completed;
      LoopCompleted(g0, old(store.graph), old(store.saves), store.graph, c, configs, params);
    }

    /** The turn of the loop for the config after those in `params`, as a step of `Run`. */
    method AnalyseNext(c: Cycle, configs: seq<ConfigEntry>, i: nat, ghost g0: set<Triple>, ghost price: string,
                       ghost g: set<Triple>, ghost params: seq<Result<Params, string>>)
      returns (result: Result<Params, string>, error: Option<string>)
      requires c.render == store.renderDecimal
      requires g == WithPrice(g0, c.pair, price)
      requires i == |params| < |configs| && Run(c, configs, params).error.None?
      requires store.graph == g + Run(c, configs, params).facts
      modifies store`graph
      ensures Extracted(result, FoundParamRows(g0, Iri(configs[|params|].uri)))
      ensures store.graph == g + Run(c, configs, params + [result]).facts
      ensures Run(c, configs, params + [result]).error == error
    {
      RunWritesNoParams(c, configs, params);
      result, error := AnalyseConfig(c, i, configs[i], g0, price, Run(c, configs, params).facts);
      RunAppend(c, configs, params, result);
    }

    /**
     * One turn of the loop over the configs: the base facts, the parameters, the dispatch and the
     * value facts of the `i`-th config; `error` is the exception that ends the cycle, if any.
     * `written` are the facts of the earlier turns.
     */
    method AnalyseConfig(c: Cycle, i: nat, entry: ConfigEntry, ghost g0: set<Triple>, ghost price: string,
                         ghost written: set<Triple>)
      returns (result: Result<Params, string>, error: Option<string>)
      requires c.render == store.renderDecimal
      requires store.graph == WithPrice(g0, c.pair, price) + written
      requires forall t | t in written :: !IsParamPredicate(t.p)
      modifies store`graph
      ensures Extracted(result, FoundParamRows(g0, Iri(entry.uri)))
      ensures store.graph == old(store.graph) + ConfigStep(c, i, entry, result).facts
      ensures error == ConfigStep(c, i, entry, result).error
    {
      var cfg := Iri(entry.uri);
      var v := IndicatorValueUri(c.pairLocal, entry.localName, c.stampAt(i), c.uuidAt(i));
      WriteBaseFacts(v, cfg, c.pair, c.when);
      BaseFactsWriteNoParams(v, cfg, c.pair, c.when);
      ParamRowsUnaffected(g0, c.pair, price, written + BaseFacts(v, cfg, c.pair, c.when), cfg);
      ghost var order;
      result, order := ConfigParameters(cfg);
      assert Extracted(result, FoundParamRows(g0, cfg));
      if result.Err? {
        return result, Some(result.error);
      }
      var raised := WriteIndicatorValues(v, entry.localName, result.value, c);
      error := if raised then Some(TYPE_ERROR) else None;
    }

    /**
     * `ejecutar_ciclo_analisis`. `fetch` stands for the market-data source, given the pair label;
     * `when` is the cycle's time as ISO text; `stampAt(i)` and `uuidAt(i)` are the time and the UUID
     * the `i`-th config's value IRI is made from; `std` is the rolling standard deviation.
     */
    method RunAnalysisCycle(localName: string, fetch: string -> Option<seq<real>>, when: string,
                            stampAt: nat -> string, uuidAt: nat -> string, std: seq<real> -> real)
      returns (outcome: Outcome, ghost rec: StrategyRecord, ghost params: seq<Result<Params, string>>)
      modifies store
      ensures outcome == StrategyNotFound <==>
        !ValidIriRef(TRADE_NS + localName) || StrategyRows(old(strategies.store.graph), TradeUri(localName)) == {}
      ensures outcome == StrategyNotFound ==> store.graph == old(store.graph) && store.saves == old(store.saves)
      ensures outcome != StrategyNotFound ==>
        && Resolves(old(strategies.store.graph), localName, rec)
        && CycleEffect(old(store.graph), old(store.saves), store.graph, store.saves, outcome, rec, params,
                       fetch, when, stampAt, uuidAt, std, store.renderDecimal)
    {
      params := [];
      ghost var g := strategies.store.graph;
      var found, row, uriOrder, nameOrder := strategies.GetActiveStrategy(localName);
      if found.None? {
        outcome := StrategyNotFound;
        rec := StrategyRecord("", "", "", "", "", "", "", []);
        return;
      }
      rec := found.value;
      assert Resolves(g, localName, rec);
      ghost var g0, saves0 := store.graph, store.saves;
      var data := fetch(found.value.pairLabel);
      if data.None? || data.value == [] {
        outcome := NoMarketData;
        NoMarketDataEffect(g0, saves0, rec, params, fetch, when, stampAt, uuidAt, std, store.renderDecimal);
        return;
      }
      outcome, params := AnalysePair(found.value, data.value, when, stampAt, uuidAt, std);
      PairEffect(g0, saves0, store.graph, store.saves, outcome, rec, params, fetch, data.value, when, stampAt, uuidAt,
                 std, store.renderDecimal);
    }

    /** The cycle once the strategy is resolved and market data is at hand: price update, then the configs. */
    method AnalysePair(rec: StrategyRecord, closes: seq<real>, when: string,
                       stampAt: nat -> string, uuidAt: nat -> string, std: seq<real> -> real)
      returns (outcome: Outcome, ghost params: seq<Result<Params, string>>)
      requires closes != []
      modifies store
      ensures LoopEffect(old(store.graph),
                         WithPrice(old(store.graph), Iri(rec.pairUri), store.renderDecimal(closes[|closes| - 1])),
                         old(store.saves), store.graph, store.saves, outcome,
                         CycleOf(rec, closes, when, stampAt, uuidAt, std, store.renderDecimal), rec.configs, params)
    {
      var pair := Iri(rec.pairUri);
      ghost var g0 := store.graph;
      store.UpdatePairPrice(pair, closes[|closes| - 1]);
      var c := Cycle(pair, LocalName(rec.pairUri), when, closes, std, store.renderDecimal, stampAt, uuidAt);
      outcome, params := AnalyseConfigs(c, rec.configs, g0, store.renderDecimal(closes[|closes| - 1]));
    }
  }

  // Lemmas

  /** Distinct local names give distinct `trade` IRIs. */
  lemma TradeUriDistinct(a: string, b: string)
    requires a != b
    ensures TradeUri(a) != TradeUri(b)
  {
    if TradeUri(a) == TradeUri(b) {
      TradeUriInjective(a, b);
    }
  }

  /** The five parameter predicates are distinct, and none of them is the price predicate. */
  lemma ParamVocabulary()
    ensures PERIODO_INDICADOR != PERIODO_CORTO && PERIODO_INDICADOR != PERIODO_LARGO
    ensures PERIODO_INDICADOR != PERIODO_SENAL && PERIODO_INDICADOR != DESVIACION_ESTANDAR
    ensures PERIODO_CORTO != PERIODO_LARGO && PERIODO_CORTO != PERIODO_SENAL && PERIODO_CORTO != DESVIACION_ESTANDAR
    ensures PERIODO_LARGO != PERIODO_SENAL && PERIODO_LARGO != DESVIACION_ESTANDAR
    ensures PERIODO_SENAL != DESVIACION_ESTANDAR
    ensures !IsParamPredicate(PRECIO_ACTUAL)
  {
    var k := |TRADE_NS|;
    assert PERIODO_INDICADOR.iri[k + 7] == 'I' && PERIODO_CORTO.iri[k + 7] == 'C';
    assert PERIODO_LARGO.iri[k + 7] == 'L' && PERIODO_SENAL.iri[k + 7] == 'S';
    assert PERIODO_INDICADOR.iri[k + 1] == 'e' && PERIODO_CORTO.iri[k + 1] == 'e';
    assert PERIODO_LARGO.iri[k + 1] == 'e' && PERIODO_SENAL.iri[k + 1] == 'e';
    assert DESVIACION_ESTANDAR.iri[k] == 'd' && PRECIO_ACTUAL.iri[k] == 'p' && PRECIO_ACTUAL.iri[k + 1] == 'r';
    assert PERIODO_INDICADOR.iri[k] == 'p' && PERIODO_CORTO.iri[k] == 'p';
    assert PERIODO_LARGO.iri[k] == 'p' && PERIODO_SENAL.iri[k] == 'p';
  }

  /** The predicates of the facts the loop over the configs writes. */
  predicate Written(p: Term) {
    || p == RDF_TYPE || p == ES_VALOR_DE || p == SE_APLICA_A || p == TIMESTAMP_VALOR || p == VALOR_NUMERICO
    || p == VALOR_BANDA_MEDIA || p == VALOR_BANDA_SUPERIOR || p == VALOR_BANDA_INFERIOR
  }

  /** The character of an IRI at index 11 (`e` in `www.example.org`, `w` in `www.w3.org`). */
  function SchemeTag(p: Term): char {
    if p.Iri? && |p.iri| > 11 then p.iri[11] else ' '
  }

  /** The first character of an IRI's local name in the `trade` namespace. */
  function NsTag(p: Term): char {
    if p.Iri? && |p.iri| > |TRADE_NS| then p.iri[|TRADE_NS|] else ' '
  }

  lemma ParamTags()
    ensures SchemeTag(PERIODO_INDICADOR) == 'e' && NsTag(PERIODO_INDICADOR) == 'p'
    ensures SchemeTag(PERIODO_CORTO) == 'e' && NsTag(PERIODO_CORTO) == 'p'
    ensures SchemeTag(PERIODO_LARGO) == 'e' && NsTag(PERIODO_LARGO) == 'p'
    ensures SchemeTag(PERIODO_SENAL) == 'e' && NsTag(PERIODO_SENAL) == 'p'
    ensures SchemeTag(DESVIACION_ESTANDAR) == 'e' && NsTag(DESVIACION_ESTANDAR) == 'd'
    ensures SchemeTag(PRECIO_ACTUAL) == 'e' && NsTag(PRECIO_ACTUAL) == 'p'
  {
    assert TRADE_NS[11] == 'e';
  }

  lemma ValueTags()
    ensures NsTag(ES_VALOR_DE) == 'e' && NsTag(SE_APLICA_A) == 's' && NsTag(TIMESTAMP_VALOR) == 't'
    ensures NsTag(VALOR_NUMERICO) == 'v' && NsTag(VALOR_BANDA_MEDIA) == 'v'
    ensures NsTag(VALOR_BANDA_SUPERIOR) == 'v' && NsTag(VALOR_BANDA_INFERIOR) == 'v'
  {
  }

  lemma WrittenTags(p: Term)
    requires Written(p)
    ensures SchemeTag(p) == 'w' || NsTag(p) == 'e' || NsTag(p) == 's' || NsTag(p) == 't' || NsTag(p) == 'v'
  {
    assert RDF_TYPE.iri[11] == 'w';
    ValueTags();
  }

  /** The loop writes no parameter predicate and no price. */
  lemma WrittenVocabulary(p: Term)
    requires Written(p)
    ensures !IsParamPredicate(p) && p != PRECIO_ACTUAL
  {
    WrittenTags(p);
    ParamTagsOf(p);
  }

  lemma ParamTagsOf(p: Term)
    ensures IsParamPredicate(p) || p == PRECIO_ACTUAL ==> SchemeTag(p) == 'e' && (NsTag(p) == 'p' || NsTag(p) == 'd')
  {
    ParamTags();
  }

  /** The value predicates are distinct. */
  lemma ValueVocabulary()
    ensures VALOR_NUMERICO != VALOR_BANDA_MEDIA && VALOR_NUMERICO != VALOR_BANDA_SUPERIOR
    ensures VALOR_NUMERICO != VALOR_BANDA_INFERIOR && VALOR_BANDA_MEDIA != VALOR_BANDA_SUPERIOR
    ensures VALOR_BANDA_MEDIA != VALOR_BANDA_INFERIOR && VALOR_BANDA_SUPERIOR != VALOR_BANDA_INFERIOR
    ensures VALOR_MACD != VALOR_SENAL_MACD && VALOR_HISTOGRAMA_MACD != VALOR_SENAL_MACD
  {
    var k := |TRADE_NS|;
    assert VALOR_NUMERICO.iri[k + 5] == 'N' && VALOR_BANDA_MEDIA.iri[k + 5] == 'B';
    assert VALOR_BANDA_SUPERIOR.iri[k + 5] == 'B' && VALOR_BANDA_INFERIOR.iri[k + 5] == 'B';
    assert VALOR_BANDA_MEDIA.iri[k + 10] == 'M' && VALOR_BANDA_SUPERIOR.iri[k + 10] == 'S';
    assert VALOR_BANDA_INFERIOR.iri[k + 10] == 'I';
    assert VALOR_MACD.iri[k + 5] == 'M' && VALOR_SENAL_MACD.iri[k + 5] == 'S' && VALOR_HISTOGRAMA_MACD.iri[k + 5] == 'H';
  }

  /**
   * The dispatch takes the first branch, in the order SMA, RSI, MACD, BB, whose keyword occurs in the
   * upper-cased local id and whose parameters are present and not zero; none applies exactly when
   * nothing is computed.
   */
  lemma DispatchFirstMatch(localId: string, p: Params)
    ensures var ind := Dispatch(localId, p);
      && (ind == Unrecognised <==> forall k | 0 <= k < |BRANCHES| :: !Applies(BRANCHES[k], localId, p))
      && (ind != Unrecognised ==>
        exists k | 0 <= k < |BRANCHES| ::
          && BRANCHES[k] == ind && Applies(ind, localId, p)
          && forall j | 0 <= j < k :: !Applies(BRANCHES[j], localId, p))
  {
    var ind := Dispatch(localId, p);
    assert BRANCHES[0] == SmaIndicator && BRANCHES[1] == RsiIndicator;
    assert BRANCHES[2] == MacdIndicator && BRANCHES[3] == BollingerIndicator;
    var k := if Applies(SmaIndicator, localId, p) then 0
      else if Applies(RsiIndicator, localId, p) then 1
      else if Applies(MacdIndicator, localId, p) then 2
      else if Applies(BollingerIndicator, localId, p) then 3
      else 4;
    assert forall j | 0 <= j < k :: !Applies(BRANCHES[j], localId, p);
    if k < 4 {
      assert BRANCHES[k] == ind && Applies(ind, localId, p);
    } else {
      assert ind == Unrecognised;
    }
  }

  /** Every fact of a config step is about that step's value IRI and uses a written predicate. */
  lemma ConfigStepShape(c: Cycle, i: nat, entry: ConfigEntry, params: Result<Params, string>)
    ensures forall t | t in ConfigStep(c, i, entry, params).facts ::
      && t.s == ValueUri(c, i, entry) && Written(t.p)
      && (t.p == TIMESTAMP_VALOR ==> t.o == Lit(c.when, XSD_DATETIME, ""))
  {
    ValueTags();
    if params.Ok? {
      var ind := Dispatch(entry.localName, params.value);
      if ind != MacdIndicator {
        ValueFactsShape(ValueUri(c, i, entry), ind, params.value, c);
      }
    }
  }

  /** The value facts are about the value and use the numeric or the band predicates. */
  lemma ValueFactsShape(v: Term, ind: Indicator, p: Params, c: Cycle)
    requires ind == Unrecognised || Ready(ind, p)
    ensures forall t | t in ValueFacts(v, ind, p, c) ::
      t.s == v && (t.p == VALOR_NUMERICO || t.p == VALOR_BANDA_MEDIA || t.p == VALOR_BANDA_SUPERIOR || t.p == VALOR_BANDA_INFERIOR)
  {
  }

  /** The loop writes only facts about the value IRIs of the configs it reached. */
  lemma {:induction false} RunSubjects(c: Cycle, entries: seq<ConfigEntry>, params: seq<Result<Params, string>>)
    requires |params| <= |entries|
    ensures forall t | t in Run(c, entries, params).facts ::
      Written(t.p) && exists k | 0 <= k < |params| :: t.s == ValueUri(c, k, entries[k])
  {
    if |params| > 0 {
      var i := |params| - 1;
      RunSubjects(c, entries, params[..i]);
      ConfigStepShape(c, i, entries[i], params[i]);
    }
  }

  lemma BaseFactsWriteNoParams(v: Term, cfg: Term, pair: Term, when: string)
    ensures forall t | t in BaseFacts(v, cfg, pair, when) :: !IsParamPredicate(t.p) && t.p != PRECIO_ACTUAL
  {
    forall t | t in BaseFacts(v, cfg, pair, when) ensures !IsParamPredicate(t.p) && t.p != PRECIO_ACTUAL {
      assert Written(t.p);
      WrittenVocabulary(t.p);
    }
  }

  /** One more turn of the loop after configs that raised nothing. */
  lemma RunAppend(c: Cycle, entries: seq<ConfigEntry>, params: seq<Result<Params, string>>, next: Result<Params, string>)
    requires |params| < |entries| && Run(c, entries, params).error.None?
    ensures var step := ConfigStep(c, |params|, entries[|params|], next);
      Run(c, entries, params + [next]) == Step(Run(c, entries, params).facts + step.facts, step.error)
  {
    assert (params + [next])[..|params|] == params;
  }

  lemma ExtractedAppend(g0: set<Triple>, configs: seq<ConfigEntry>, params: seq<Result<Params, string>>,
                        next: Result<Params, string>)
    requires |params| < |configs|
    requires AllExtracted(g0, configs, params)
    requires Extracted(next, FoundParamRows(g0, Iri(configs[|params|].uri)))
    ensures AllExtracted(g0, configs, params + [next])
  {
  }

  /** The loop never writes a parameter predicate nor a price. */
  lemma RunWritesNoParams(c: Cycle, entries: seq<ConfigEntry>, params: seq<Result<Params, string>>)
    requires |params| <= |entries|
    ensures forall t | t in Run(c, entries, params).facts :: !IsParamPredicate(t.p) && t.p != PRECIO_ACTUAL
  {
    RunSubjects(c, entries, params);
    forall t | t in Run(c, entries, params).facts ensures !IsParamPredicate(t.p) && t.p != PRECIO_ACTUAL {
      WrittenVocabulary(t.p);
    }
  }

  /** The parameter rows of a config are the same after the price update and any facts the loop writes. */
  lemma ParamRowsUnaffected(g: set<Triple>, pair: Term, price: string, extra: set<Triple>, cfg: Term)
    requires forall t | t in extra :: !IsParamPredicate(t.p)
    ensures FoundParamRows(WithPrice(g, pair, price) + extra, cfg) == FoundParamRows(g, cfg)
  {
    ParamVocabulary();
    var g' := WithPrice(g, pair, price) + extra;
    assert ParamRows(g', cfg) == ParamRows(g, cfg) by {
      forall row | row in ParamRows(g', cfg) ensures row in ParamRows(g, cfg) {
        var t :| t in g' && t.s == cfg && IsParamPredicate(t.p) && row == (t.p, t.o);
        assert t in g;
      }
      forall row | row in ParamRows(g, cfg) ensures row in ParamRows(g', cfg) {
        var t :| t in g && t.s == cfg && IsParamPredicate(t.p) && row == (t.p, t.o);
        assert t in g';
      }
    }
  }

  /** Parameter extraction reads only the five parameter predicates of the config itself. */
  lemma ParamRowsOnlyConfig(g: set<Triple>, cfg: Term, t: Triple)
    requires t.s != cfg || !IsParamPredicate(t.p)
    ensures ParamRows(g + {t}, cfg) == ParamRows(g, cfg)
  {
    assert forall u | u in g + {t} && u.s == cfg && IsParamPredicate(u.p) :: u in g;
  }

  /** A row whose conversion raises makes the whole loop raise. */
  lemma ParseFailure(order: seq<ParamRow>, rows: set<ParamRow>)
    requires |order| > 0 && ParamsOf(order).Err?
    requires multiset(order) <= multiset(rows)
    ensures exists row | row in rows :: !Parses(row)
  {
    ParamsFailIff(order);
    var k :| 0 <= k < |order| && !Parses(order[k]);
    assert order[k] in multiset(order);
  }

  /** One row: it raises exactly when its object does not convert, and sets only its own variable. */
  lemma ApplyRowSpec(p: Params, row: ParamRow)
    ensures ApplyRow(p, row).Ok? <==> Parses(row)
    ensures ApplyRow(p, row).Ok? ==> ApplyRow(p, row).value == Params(
      if row.0 == PERIODO_INDICADOR then ParseInt(Lexical(row.1)) else p.period,
      if row.0 == PERIODO_CORTO then ParseInt(Lexical(row.1)) else p.short,
      if row.0 == PERIODO_LARGO then ParseInt(Lexical(row.1)) else p.long,
      if row.0 == PERIODO_SENAL then ParseInt(Lexical(row.1)) else p.signal,
      if row.0 == DESVIACION_ESTANDAR then ParseDecimal(Lexical(row.1)) else p.stdDev)
  {
    ParamVocabulary();
  }

  /** The loop over the rows raises exactly when some row does not convert. */
  lemma {:induction false} ParamsFailIff(order: seq<ParamRow>)
    ensures ParamsOf(order).Err? <==> exists k | 0 <= k < |order| :: !Parses(order[k])
    decreases |order|
  {
    if |order| > 0 {
      var i := |order| - 1;
      var init := order[..i];
      ParamsFailIff(init);
      assert forall k | 0 <= k < i :: init[k] == order[k];
      if ParamsOf(init).Ok? {
        ApplyRowSpec(ParamsOf(init).value, order[i]);
      }
    }
  }

  /**
   * When no row raises, each variable holds the converted object of the last row with its predicate,
   * and `None` when there is none.
   */
  lemma {:induction false} ParamsSlots(order: seq<ParamRow>)
    requires ParamsOf(order).Ok?
    ensures ParamsOf(order).value == Params(
      IntSlot(order, PERIODO_INDICADOR), IntSlot(order, PERIODO_CORTO), IntSlot(order, PERIODO_LARGO),
      IntSlot(order, PERIODO_SENAL), DecimalSlot(order, DESVIACION_ESTANDAR))
    decreases |order|
  {
    if |order| > 0 {
      var i := |order| - 1;
      var init := order[..i];
      ParamsSlots(init);
      ApplyRowSpec(ParamsOf(init).value, order[i]);
    }
  }

  /** With one row per predicate, the result does not depend on the order of the rows. */
  lemma {:induction false} LastWithUnique(order: seq<ParamRow>, rows: set<ParamRow>, pred: Term)
    requires Enumerates(order, rows) && SingleValued(rows)
    ensures LastWith(order, pred) == ObjectIn(rows, pred)
  {
    EnumeratedMembers(order, rows);
    if exists row :: row in rows && row.0 == pred {
      var row :| row in rows && row.0 == pred;
      assert row in order;
      var o := LastWith(order, pred);
      assert (pred, o.value) in rows;
    } else {
      forall k | 0 <= k < |order| ensures order[k].0 != pred {
        assert order[k] in rows;
      }
    }
  }

  /**
   * Whatever order the rows come in, extraction raises exactly when some row does not convert, and
   * with one row per predicate each variable holds that row's converted object, or `None`.
   */
  lemma ExtractedParams(r: Result<Params, string>, rows: set<ParamRow>)
    requires Extracted(r, rows)
    ensures r.Err? <==> exists row | row in rows :: !Parses(row)
    ensures r.Ok? && SingleValued(rows) ==>
      && r.value.period == ParsedInt(ObjectIn(rows, PERIODO_INDICADOR))
      && r.value.short == ParsedInt(ObjectIn(rows, PERIODO_CORTO))
      && r.value.long == ParsedInt(ObjectIn(rows, PERIODO_LARGO))
      && r.value.signal == ParsedInt(ObjectIn(rows, PERIODO_SENAL))
      && r.value.stdDev == ParsedDecimal(ObjectIn(rows, DESVIACION_ESTANDAR))
  {
    var order :| multiset(order) <= multiset(rows) && (r.Ok? ==> Enumerates(order, rows)) && r == ParamsOf(order);
    ParamsFailIff(order);
    if r.Err? {
      var k :| 0 <= k < |order| && !Parses(order[k]);
      assert order[k] in multiset(order);
    } else {
      EnumeratedMembers(order, rows);
      ParamsSlots(order);
      if SingleValued(rows) {
        LastWithUnique(order, rows, PERIODO_INDICADOR);
        LastWithUnique(order, rows, PERIODO_CORTO);
        LastWithUnique(order, rows, PERIODO_LARGO);
        LastWithUnique(order, rows, PERIODO_SENAL);
        LastWithUnique(order, rows, DESVIACION_ESTANDAR);
      }
    }
  }

  function ParsedInt(o: Option<Term>): Option<int> {
    match o
    case None => None
    case Some(t) => ParseInt(Lexical(t))
  }

  function ParsedDecimal(o: Option<Term>): Option<real> {
    match o
    case None => None
    case Some(t) => ParseDecimal(Lexical(t))
  }

  /** A period stored as an xsd:decimal literal such as `"20.0"` makes the cycle raise `ValueError`. */
  lemma DecimalPeriodRaises(rows: set<ParamRow>, r: Result<Params, string>, o: Term)
    requires Extracted(r, rows)
    requires (PERIODO_INDICADOR, o) in rows && '.' in Lexical(o)
    ensures r.Err?
  {
    IntRejectsDecimalPoint(Lexical(o));
    ExtractedParams(r, rows);
  }

  /** An upper-case keyword found in a local id is found in its upper-cased form too. */
  lemma UpperKeepsKeyword(s: string, kw: string)
    requires forall k | 0 <= k < |kw| :: 'A' <= kw[k] <= 'Z'
    requires Contains(s, kw)
    ensures Contains(Upper(s), kw)
  {
    var i :| 0 <= i <= |s| - |kw| && OccursAt(s, kw, i);
    assert Upper(s)[i..i + |kw|] == kw by {
      forall k | 0 <= k < |kw| ensures Upper(s)[i + k] == kw[k] {
        assert s[i + k] == s[i..i + |kw|][k];
      }
    }
    assert OccursAt(Upper(s), kw, i);
  }

  /** The keywords are matched case-insensitively: a lower-case `rsi` in the id selects the RSI branch. */
  lemma LowerCaseRsi(prefix: string, suffix: string, p: Params)
    requires Truthy(p.period)
    requires !Contains(Upper(prefix + "rsi" + suffix), "SMA")
    ensures Dispatch(prefix + "rsi" + suffix, p) == RsiIndicator
  {
    var s := prefix + "rsi" + suffix;
    var i := |prefix|;
    assert Upper(s)[i..i + 3] == "RSI" by {
      assert s[i] == 'r' && s[i + 1] == 's' && s[i + 2] == 'i';
    }
    assert OccursAt(Upper(s), "RSI", i);
  }

  /**
   * The value IRI's local id is the id built from the pair, the config, the time and the first four
   * characters of the UUID, and two times of the same length that differ give different IRIs.
   */
  lemma IndicatorValueUriShape(pairLocal: string, cfgLocal: string, stamp: string, uuid: string)
    requires '#' !in pairLocal && '#' !in cfgLocal && '#' !in stamp && '#' !in uuid
    ensures var id := IndicatorValueId(pairLocal, cfgLocal, stamp, uuid);
      && LocalName(Lexical(IndicatorValueUri(pairLocal, cfgLocal, stamp, uuid))) == id
      && id == VALUE_ID_PREFIX + pairLocal + "_" + cfgLocal + "_" + stamp + "_" + uuid[..if |uuid| < 4 then |uuid| else 4]
  {
    var id := IndicatorValueId(pairLocal, cfgLocal, stamp, uuid);
    assert '#' !in Take(uuid, 4) by {
      if |uuid| > 4 {
        assert forall k | 0 <= k < 4 :: uuid[..4][k] == uuid[k];
      }
    }
    assert '#' !in VALUE_ID_PREFIX;
    assert '#' !in id;
    TradeUriLocalName(id);
    if |uuid| < 4 {
      assert uuid[..|uuid|] == uuid;
    }
  }

  lemma DistinctStampsDistinctUris(pairLocal: string, cfgLocal: string, s1: string, s2: string, u1: string, u2: string)
    requires |s1| == |s2| && s1 != s2
    ensures IndicatorValueUri(pairLocal, cfgLocal, s1, u1) != IndicatorValueUri(pairLocal, cfgLocal, s2, u2)
  {
    var id1 := IndicatorValueId(pairLocal, cfgLocal, s1, u1);
    var id2 := IndicatorValueId(pairLocal, cfgLocal, s2, u2);
    var head := VALUE_ID_PREFIX + pairLocal + "_" + cfgLocal + "_";
    assert id1 == head + s1 + "_" + Take(u1, 4);
    assert id2 == head + s2 + "_" + Take(u2, 4);
    assert id1[|head|..|head| + |s1|] == s1;
    assert id2[|head|..|head| + |s2|] == s2;
    TradeUriDistinct(id1, id2);
  }

  /** The facts written by the first configs stay when the loop goes on. */
  lemma {:induction false} RunGrows(c: Cycle, entries: seq<ConfigEntry>, params: seq<Result<Params, string>>, k: nat)
    requires k <= |params| <= |entries|
    ensures Run(c, entries, params[..k]).facts <= Run(c, entries, params).facts
    decreases |params|
  {
    if k < |params| {
      var i := |params| - 1;
      assert params[..i][..k] == params[..k];
      RunGrows(c, entries, params[..i], k);
    } else {
      assert params[..k] == params;
    }
  }

  /**
   * The base facts of every config the loop reached are written whatever its parameters and its
   * dispatch yield.
   */
  lemma RunBaseFacts(c: Cycle, entries: seq<ConfigEntry>, params: seq<Result<Params, string>>, k: nat)
    requires k < |params| <= |entries|
    requires Run(c, entries, params[..k]).error.None?
    ensures BaseFacts(ValueUri(c, k, entries[k]), Iri(entries[k].uri), c.pair, c.when) <= Run(c, entries, params).facts
  {
    assert params[..k + 1][..k] == params[..k];
    RunGrows(c, entries, params, k + 1);
  }

  /** All the values of one cycle carry the one time of the cycle. */
  lemma {:induction false} RunTimestamps(c: Cycle, entries: seq<ConfigEntry>, params: seq<Result<Params, string>>)
    requires |params| <= |entries|
    ensures forall t | t in Run(c, entries, params).facts && t.p == TIMESTAMP_VALOR :: t.o == Lit(c.when, XSD_DATETIME, "")
    decreases |params|
  {
    if |params| > 0 {
      var i := |params| - 1;
      RunTimestamps(c, entries, params[..i]);
      ConfigStepShape(c, i, entries[i], params[i]);
    }
  }

  /**
   * The loop stops at the first exception: once a config raised, the later ones write nothing.
   */
  lemma {:induction false} RunStopsAtError(c: Cycle, entries: seq<ConfigEntry>, params: seq<Result<Params, string>>, k: nat)
    requires k < |params| <= |entries|
    requires Run(c, entries, params[..k + 1]).error.Some?
    ensures Run(c, entries, params) == Run(c, entries, params[..k + 1])
    decreases |params|
  {
    if |params| > k + 1 {
      var i := |params| - 1;
      assert params[..i][..k + 1] == params[..k + 1];
      RunStopsAtError(c, entries, params[..i], k);
    } else {
      assert params[..k + 1] == params;
    }
  }

  /**
   * A config whose parameters are ready for MACD, and that no earlier branch takes, makes the cycle
   * end with `TypeError` after its base facts: a cycle reaching it never completes, so never saves.
   */
  lemma MacdConfigRaises(c: Cycle, entries: seq<ConfigEntry>, params: seq<Result<Params, string>>, k: nat)
    requires k < |params| <= |entries|
    requires Run(c, entries, params[..k]).error.None?
    requires params[k].Ok? && Dispatch(entries[k].localName, params[k].value) == MacdIndicator
    ensures Run(c, entries, params).error == Some(TYPE_ERROR)
    ensures BaseFacts(ValueUri(c, k, entries[k]), Iri(entries[k].uri), c.pair, c.when) <= Run(c, entries, params).facts
  {
    assert params[..k + 1][..k] == params[..k];
    assert Run(c, entries, params[..k + 1]).error == Some(TYPE_ERROR);
    RunStopsAtError(c, entries, params, k);
  }

  /**
   * A numeric value fact is written only for an SMA or RSI config whose indicator yields a value,
   * and it holds that value; band facts only for a Bollinger config whose bands are present.
   */
  lemma ValueFactsOnlyWithValues(v: Term, ind: Indicator, p: Params, c: Cycle, t: Triple)
    requires ind == Unrecognised || Ready(ind, p)
    requires t in ValueFacts(v, ind, p, c)
    ensures t.s == v
    ensures t.p == VALOR_NUMERICO ==>
      || (ind == SmaIndicator && Sma(c.closes, p.period.value).Some?
          && t.o == DecimalLiteral(c.render(Sma(c.closes, p.period.value).value)))
      || (ind == RsiIndicator && Rsi(c.closes, p.period.value).Some?
          && t.o == DecimalLiteral(c.render(Rsi(c.closes, p.period.value).value)))
    ensures t.p != VALOR_NUMERICO ==>
      && ind == BollingerIndicator
      && var b := Bollinger(c.std, c.closes, p.period.value, Truncate(p.stdDev.value));
      && b.Some?
      && (t.p == VALOR_BANDA_MEDIA ==> t.o == DecimalLiteral(c.render(b.value.media.value)))
      && (t.p == VALOR_BANDA_SUPERIOR ==> t.o == DecimalLiteral(c.render(b.value.superior.value)))
      && (t.p == VALOR_BANDA_INFERIOR ==> t.o == DecimalLiteral(c.render(b.value.inferior.value)))
  {
    match ind
    case BollingerIndicator =>
      ValueVocabulary();
      var b := Bollinger(c.std, c.closes, p.period.value, Truncate(p.stdDev.value));
      assert b.Some? && t in BandFacts(v, b.value, c.render);
    case _ =>
  }

  /**
   * The `"senal"` key is never in a MACD result (the key is `"señal"`), so the signal-line fact is
   * never written, while the line and the histogram are.
   */
  lemma MacdSignalNeverWritten(v: Term, r: MacdReading, render: real -> string)
    ensures forall t | t in MacdValueFacts(v, r, render) :: t.p != VALOR_SENAL_MACD
    ensures Triple(v, VALOR_MACD, DecimalLiteral(render(r.macd))) in MacdValueFacts(v, r, render)
    ensures Triple(v, VALOR_HISTOGRAMA_MACD, DecimalLiteral(render(r.histograma))) in MacdValueFacts(v, r, render)
    ensures MacdGet(r, "señal") == Some(r.senal)
  {
    assert "senal" != "señal";
    assert MacdGet(r, "senal").None?;
    assert VALOR_MACD != VALOR_SENAL_MACD by {
      TradeUriDistinct("valorMACD", "valorSenalMACD");
    }
    assert VALOR_HISTOGRAMA_MACD != VALOR_SENAL_MACD by {
      TradeUriDistinct("valorHistogramaMACD", "valorSenalMACD");
    }
  }

  /**
   * After a cycle that got past the price update, the pair has exactly one current price, the last
   * close, and the facts about every other subject not written by the loop are unchanged.
   */
  lemma CyclePrice(g: set<Triple>, c: Cycle, entries: seq<ConfigEntry>, params: seq<Result<Params, string>>, price: string)
    requires |params| <= |entries|
    ensures ObjectsOf(WithPrice(g, c.pair, price) + Run(c, entries, params).facts, c.pair, PRECIO_ACTUAL)
      == {DecimalLiteral(price)}
    ensures forall t: Triple |
      && !(t.s == c.pair && t.p == PRECIO_ACTUAL)
      && (forall k | 0 <= k < |params| :: t.s != ValueUri(c, k, entries[k])) ::
      t in WithPrice(g, c.pair, price) + Run(c, entries, params).facts <==> t in g
  {
    RunWritesNoParams(c, entries, params);
    RunSubjects(c, entries, params);
    var g' := WithPrice(g, c.pair, price) + Run(c, entries, params).facts;
    forall o | o in ObjectsOf(g', c.pair, PRECIO_ACTUAL) ensures o == DecimalLiteral(price) {
      var t :| t in g' && t.s == c.pair && t.p == PRECIO_ACTUAL && t.o == o;
      assert t.o in ObjectsOf(WithPrice(g, c.pair, price), c.pair, PRECIO_ACTUAL);
    }
    assert DecimalLiteral(price) in ObjectsOf(WithPrice(g, c.pair, price), c.pair, PRECIO_ACTUAL);
    assert Triple(c.pair, PRECIO_ACTUAL, DecimalLiteral(price)) in g';
  }
}
