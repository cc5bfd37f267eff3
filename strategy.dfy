/**
 * The strategy resolver (`agentes/agente_perfil_estrategia.py`): defining a strategy rewrites every
 * fact whose subject is the strategy, and resolving it runs one fixed query (modelled as a set
 * comprehension over the triples) and turns its aggregated strings into a record with a config list.
 */
module Strategy {
  import opened Wrappers
  import opened Text
  import opened Store

  // Defining a strategy

  /** The core facts `definir_o_actualizar_estrategia` writes about the strategy `s`. */
  function CoreFacts(s: Term, display: string, pairLocal: string, risk: string, horizon: string): set<Triple> {
    {
      Triple(s, RDF_TYPE, ESTRATEGIA),
      Triple(s, NOMBRE_ESTRATEGIA, Lit(display, "", "es")),
      Triple(s, MONITOREA_PAR, TradeUri(pairLocal)),
      Triple(s, NIVEL_RIESGO_PREFERIDO, PlainLiteral(risk)),
      Triple(s, HORIZONTE_TEMPORAL, PlainLiteral(horizon))
    }
  }

  /** One `utilizaConfigIndicador` fact per distinct listed config local name. */
  function ConfigFacts(s: Term, configs: seq<string>): set<Triple> {
    set c | c in configs :: Triple(s, UTILIZA_CONFIG_INDICADOR, TradeUri(c))
  }

  /** Every fact about the strategy after it is (re)defined. */
  function StrategyFacts(localName: string, display: string, pairLocal: string, configs: seq<string>,
                         risk: string, horizon: string): (facts: set<Triple>)
    ensures forall t | t in facts :: t.s == TradeUri(localName)
  {
    var s := TradeUri(localName);
    CoreFacts(s, display, pairLocal, risk, horizon) + ConfigFacts(s, configs)
  }

  /** `g` with every fact about `s` replaced by `facts`. */
  function Redefined(g: set<Triple>, s: Term, facts: set<Triple>): (g': set<Triple>)
    requires forall t | t in facts :: t.s == s
    ensures SubjectFacts(g', s) == facts
    ensures forall t: Triple | t.s != s :: t in g' <==> t in g
  {
    (g - SubjectFacts(g, s)) + facts
  }

  // Resolving a strategy

  /** The symbols of the base and quote assets of `pair`. */
  function PairSymbols(g: set<Triple>, pair: Term): set<(Term, Term)> {
    set baseAsset, quoteAsset, baseSymbol, quoteSymbol |
      && baseAsset in ObjectsOf(g, pair, TIENE_ACTIVO_BASE)
      && quoteAsset in ObjectsOf(g, pair, TIENE_ACTIVO_COTIZACION)
      && baseSymbol in ObjectsOf(g, baseAsset, SIMBOLO_CRIPTO)
      && quoteSymbol in ObjectsOf(g, quoteAsset, SIMBOLO_CRIPTO)
      :: (baseSymbol, quoteSymbol)
  }

  /** One group of the strategy query: the values of its `GROUP BY` variables. */
  datatype Row = Row(name: Term, pair: Term, baseSymbol: Term, quoteSymbol: Term, risk: Term, horizon: Term)

  /** The groups the strategy query yields for `s` (before `LIMIT 1`). */
  function StrategyRows(g: set<Triple>, s: Term): set<Row> {
    if Triple(s, RDF_TYPE, ESTRATEGIA) !in g then {}
    else
      set name, pair, risk, horizon, symbols |
        && name in ObjectsOf(g, s, NOMBRE_ESTRATEGIA)
        && pair in ObjectsOf(g, s, MONITOREA_PAR)
        && risk in ObjectsOf(g, s, NIVEL_RIESGO_PREFERIDO)
        && horizon in ObjectsOf(g, s, HORIZONTE_TEMPORAL)
        && symbols in PairSymbols(g, pair)
        :: Row(name, pair, symbols.0, symbols.1, risk, horizon)
  }

  /** The strategy query; the engine rejects it when the strategy IRI cannot be written as an IRIREF. */
  function StrategyQuery(s: Term, g: set<Triple>): Result<set<Row>, string> {
    if ValidIriRef(Lexical(s)) then Ok(StrategyRows(g, s)) else Err("malformed query")
  }

  /** The values `GROUP_CONCAT(DISTINCT STR(?configIndicadorURI))` aggregates. */
  function ConfigUriTexts(g: set<Triple>, s: Term): set<string> {
    set c | c in ObjectsOf(g, s, UTILIZA_CONFIG_INDICADOR) :: Lexical(c)
  }

  /** The values `GROUP_CONCAT(DISTINCT ?nombreCfgInd)` aggregates. */
  function ConfigNameTerms(g: set<Triple>, s: Term): set<Term> {
    set c, n | c in ObjectsOf(g, s, UTILIZA_CONFIG_INDICADOR) && n in ObjectsOf(g, c, NOMBRE_CONFIG_INDICADOR) :: n
  }

  /** `order` lists every element of `items` exactly once. */
  ghost predicate Enumerates<T>(order: seq<T>, items: set<T>) {
    multiset(order) == multiset(items)
  }

  /** The text of each element of `order`, position by position. */
  function Texts<T>(order: seq<T>, text: T -> string): (r: seq<string>)
    ensures |r| == |order| && forall i | 0 <= i < |order| :: r[i] == text(order[i])
  {
    seq(|order|, i requires 0 <= i < |order| => text(order[i]))
  }

  /** An entry of `configuraciones_indicadores`. */
  datatype ConfigEntry = ConfigEntry(uri: string, localName: string, display: string)

  /** The dictionary `obtener_estrategia_activa` returns. */
  datatype StrategyRecord = StrategyRecord(
    uri: string, localName: string, displayName: string, pairUri: string, pairLabel: string,
    risk: string, horizon: string, configs: seq<ConfigEntry>)

  function Elements<T>(xs: seq<T>): set<T> {
    set x | x in xs
  }

  /** The URI texts of the listed config local names. */
  function ListedUris(configs: seq<string>): set<string> {
    set c | c in configs :: TRADE_NS + c
  }

  /** The IRIs of the listed config local names. */
  function ListedConfigs(configs: seq<string>): set<Term> {
    set c | c in configs :: TradeUri(c)
  }

  function EntryUris(list: seq<ConfigEntry>): set<string> {
    set e | e in list :: e.uri
  }

  function EntryLocalNames(list: seq<ConfigEntry>): set<string> {
    set e | e in list :: e.localName
  }

  /** The non-blank pieces of a split URI text. */
  function NonBlankPieces(uris: seq<string>): set<string> {
    set k | 0 <= k < |uris| && !IsBlank(uris[k]) :: uris[k]
  }

  /** The name shown for the config at index `i`: a non-blank name at that index, or else the local id. */
  function DisplayName(u: string, names: seq<Option<string>>, i: nat): string {
    if i < |names| && names[i].Some? && !IsBlank(names[i].value) then names[i].value else LocalName(u)
  }

  /**
   * The indices of the non-blank pieces, in increasing order: an increasing sequence of non-blank
   * indices that misses none of them.
   */
  function KeptIndices(uris: seq<string>): (ks: seq<nat>)
    ensures forall j | 0 <= j < |ks| :: ks[j] < |uris| && !IsBlank(uris[ks[j]])
    ensures forall j, j' | 0 <= j < j' < |ks| :: ks[j] < ks[j']
    ensures forall k | 0 <= k < |uris| && !IsBlank(uris[k]) :: k in ks
    decreases |uris|
  {
    if |uris| == 0 then []
    else
      var i := |uris| - 1;
      assert forall k | 0 <= k < i :: uris[..i][k] == uris[k];
      KeptIndices(uris[..i]) + (if IsBlank(uris[i]) then [] else [i])
  }

  /** The entry made for the piece at index `k`. */
  function EntryAt(uris: seq<string>, names: seq<Option<string>>, k: nat): ConfigEntry
    requires k < |uris|
  {
    ConfigEntry(uris[k], LocalName(uris[k]), DisplayName(uris[k], names, k))
  }

  /**
   * The config list built from the split URI text and the split names: one entry per non-blank URI
   * piece, in the order of the pieces, blank pieces skipped.
   */
  function ConfigEntries(uris: seq<string>, names: seq<Option<string>>): (r: seq<ConfigEntry>)
    ensures |r| == |KeptIndices(uris)|
    ensures forall j | 0 <= j < |r| :: r[j] == EntryAt(uris, names, KeptIndices(uris)[j])
    ensures forall e | e in r :: e.localName == LocalName(e.uri) && !IsBlank(e.uri)
    ensures EntryUris(r) == NonBlankPieces(uris)
    decreases |uris|
  {
    if |uris| == 0 then []
    else
      var i := |uris| - 1;
      var init := ConfigEntries(uris[..i], names);
      var last := if IsBlank(uris[i]) then [] else [EntryAt(uris, names, i)];
      EntriesStep(uris, names, init);
      assert NonBlankPieces(uris) == NonBlankPieces(uris[..i]) + EntryUris(last);
      init + last
  }

  /** One more piece adds its entry after those of the earlier pieces, exactly when it is not blank. */
  lemma EntriesStep(uris: seq<string>, names: seq<Option<string>>, init: seq<ConfigEntry>)
    requires |uris| > 0
    requires |init| == |KeptIndices(uris[..|uris| - 1])|
    requires forall j | 0 <= j < |init| :: init[j] == EntryAt(uris[..|uris| - 1], names, KeptIndices(uris[..|uris| - 1])[j])
    ensures var i := |uris| - 1;
      var r := init + (if IsBlank(uris[i]) then [] else [EntryAt(uris, names, i)]);
      && |r| == |KeptIndices(uris)|
      && forall j | 0 <= j < |r| :: r[j] == EntryAt(uris, names, KeptIndices(uris)[j])
  {
    var i := |uris| - 1;
    var ks := KeptIndices(uris[..i]);
    var last := if IsBlank(uris[i]) then [] else [EntryAt(uris, names, i)];
    var r := init + last;
    assert KeptIndices(uris) == ks + (if IsBlank(uris[i]) then [] else [i]);
    forall j | 0 <= j < |r| ensures r[j] == EntryAt(uris, names, KeptIndices(uris)[j]) {
      if j < |init| {
        assert KeptIndices(uris)[j] == ks[j] && ks[j] < i;
        assert uris[..i][ks[j]] == uris[ks[j]];
      }
    }
  }

  /** The names list: the split name text, or one missing name per URI piece when it is blank. */
  function NameSlots(nameText: string, count: nat): seq<Option<string>> {
    if IsBlank(nameText) then seq(count, _ => None)
    else
      var parts := Split(nameText, "||");
      seq(|parts|, i requires 0 <= i < |parts| => Some(parts[i]))
  }

  /** `lista_configs` from the two aggregated strings; a blank URI text gives an empty list. */
  function ConfigList(uriText: string, nameText: string): seq<ConfigEntry> {
    if IsBlank(uriText) then []
    else
      var uris := Split(uriText, ",");
      ConfigEntries(uris, NameSlots(nameText, |uris|))
  }

  /** The record built from the chosen group and the two aggregated strings. */
  function Resolved(localName: string, row: Row, uriText: string, nameText: string): StrategyRecord {
    StrategyRecord(
      TRADE_NS + localName, localName, Lexical(row.name), Lexical(row.pair),
      Lexical(row.baseSymbol) + "/" + Lexical(row.quoteSymbol),
      Lexical(row.risk), Lexical(row.horizon), ConfigList(uriText, nameText))
  }

  /**
   * `GROUP_CONCAT(DISTINCT ...; separator=sep)`: the texts of the distinct values, in an order the
   * engine does not specify, joined by `sep`.
   */
  method GroupConcat<T>(items: set<T>, text: T -> string, sep: string) returns (s: string, ghost order: seq<T>)
    ensures Enumerates(order, items)
    ensures s == Join(Texts(order, text), sep)
  {
    var rest := items;
    var first := true;
    s, order := "", [];
    while rest != {}
      invariant rest <= items
      invariant first <==> |order| == 0
      invariant multiset(order) + multiset(rest) == multiset(items)
      invariant s == Join(Texts(order, text), sep)
      decreases rest
    {
      var x :| x in rest;
      assert Texts([x] + order, text) == [text(x)] + Texts(order, text);
      s := if first then text(x) else text(x) + sep + s;
      first := false;
      order := [x] + order;
      rest := rest - {x};
    }
  }

  /** The loop of `obtener_estrategia_activa` that appends one entry per non-blank URI piece. */
  method BuildConfigList(uriText: string, nameText: string) returns (list: seq<ConfigEntry>)
    ensures list == ConfigList(uriText, nameText)
  {
    list := [];
    if IsBlank(uriText) {
      return;
    }
    var uris := Split(uriText, ",");
    var names := NameSlots(nameText, |uris|);
    var i := 0;
    while i < |uris|
      invariant 0 <= i <= |uris|
      invariant list == ConfigEntries(uris[..i], names)
    {
      if !IsBlank(uris[i]) {
        list := list + [EntryAt(uris, names, i)];
      }
      assert uris[..i + 1][..i] == uris[..i];
      i := i + 1;
    }
    assert uris[..i] == uris;
  }

  /** `AgentePerfilEstrategia`: defines and resolves strategies in the shared store. */
  class StrategyAgent {
    const store: RdfManager

    constructor (store: RdfManager)
      ensures this.store == store
    {
      this.store := store;
    }

    /**
     * `definir_o_actualizar_estrategia`: retracts every fact about the strategy, writes the new ones
     * and saves. `configs` are the local names of the indicator configs.
     */
    method DefineOrUpdateStrategy(localName: string, display: string, pairLocal: string, configs: seq<string>,
                                  risk: string := "MEDIO", horizon: string := "CORTO_PLAZO")
      returns (uri: Term)
      modifies store
      ensures uri == TradeUri(localName)
      ensures store.graph == Redefined(old(store.graph), uri,
                                       StrategyFacts(localName, display, pairLocal, configs, risk, horizon))
      ensures store.saves == old(store.saves) + 1
    {
      uri := TradeUri(localName);
      ghost var g := store.graph;
      RetractSubject(uri);
      store.AddTriple(Triple(uri, RDF_TYPE, ESTRATEGIA));
      store.AddTriple(Triple(uri, NOMBRE_ESTRATEGIA, Lit(display, "", "es")));
      store.AddTriple(Triple(uri, MONITOREA_PAR, TradeUri(pairLocal)));
      store.AddTriple(Triple(uri, NIVEL_RIESGO_PREFERIDO, PlainLiteral(risk)));
      store.AddTriple(Triple(uri, HORIZONTE_TEMPORAL, PlainLiteral(horizon)));
      assert store.graph == (g - SubjectFacts(g, uri)) + CoreFacts(uri, display, pairLocal, risk, horizon);
      AddConfigs(uri, configs);
      store.Save();
    }

    /** The removal loop: every fact whose subject is `s` is removed, one at a time. */
    method RetractSubject(s: Term)
      modifies store`graph
      ensures store.graph == old(store.graph) - SubjectFacts(old(store.graph), s)
    {
      ghost var doomed := SubjectFacts(store.graph, s);
      var toRemove := SubjectFacts(store.graph, s);
      while toRemove != {}
        invariant toRemove <= doomed
        invariant store.graph == old(store.graph) - (doomed - toRemove)
        decreases toRemove
      {
        var t :| t in toRemove;
        store.Remove(Some(t.s), Some(t.p), Some(t.o));
        assert store.graph == old(store.graph) - (doomed - toRemove) - {t};
        toRemove := toRemove - {t};
      }
    }

    /** The loop adding one `utilizaConfigIndicador` fact per listed config. */
    method AddConfigs(s: Term, configs: seq<string>)
      modifies store`graph
      ensures store.graph == old(store.graph) + ConfigFacts(s, configs)
    {
      var i := 0;
      while i < |configs|
        invariant 0 <= i <= |configs|
        invariant store.graph == old(store.graph) + ConfigFacts(s, configs[..i])
      {
        store.AddTriple(Triple(s, UTILIZA_CONFIG_INDICADOR, TradeUri(configs[i])));
        assert configs[..i + 1] == configs[..i] + [configs[i]];
        i := i + 1;
      }
      assert configs[..i] == configs;
    }

    /**
     * `obtener_estrategia_activa`: `None` when the query fails or finds no group; otherwise the record
     * built from one group (`LIMIT 1`) and the two aggregated strings.
     */
    method GetActiveStrategy(localName: string := "EstrategiaPredeterminada")
      returns (r: Option<StrategyRecord>, ghost row: Row, ghost uriOrder: seq<string>, ghost nameOrder: seq<Term>)
      ensures var s := TradeUri(localName);
        r.None? <==> !ValidIriRef(Lexical(s)) || StrategyRows(store.graph, s) == {}
      ensures var s := TradeUri(localName);
        r.Some? ==>
          && row in StrategyRows(store.graph, s)
          && Enumerates(uriOrder, ConfigUriTexts(store.graph, s))
          && Enumerates(nameOrder, ConfigNameTerms(store.graph, s))
          && r.value == Resolved(localName, row, Join(uriOrder, ","), Join(Texts(nameOrder, Lexical), "||"))
    {
      var s := TradeUri(localName);
      row, uriOrder, nameOrder := Row(s, s, s, s, s, s), [], [];
      var rows := store.ExecuteSparql(g => StrategyQuery(s, g));
      if rows.None? || rows.value == {} {
        return None, row, uriOrder, nameOrder;
      }
      var chosen :| chosen in rows.value;
      row := chosen;
      var uriText, nameText;
      uriText, uriOrder := GroupConcat(ConfigUriTexts(store.graph, s), u => u, ",");
      nameText, nameOrder := GroupConcat(ConfigNameTerms(store.graph, s), Lexical, "||");
      assert Texts(uriOrder, u => u) == uriOrder;
      var configs := BuildConfigList(uriText, nameText);
      r := Some(StrategyRecord(
        TRADE_NS + localName, localName, Lexical(chosen.name), Lexical(chosen.pair),
        Lexical(chosen.baseSymbol) + "/" + Lexical(chosen.quoteSymbol),
        Lexical(chosen.risk), Lexical(chosen.horizon), configs));
    }
  }

  // Lemmas

  /** The predicates the resolver reads are pairwise distinct IRIs. */
  lemma VocabularyDistinct()
    ensures RDF_TYPE != NOMBRE_ESTRATEGIA && RDF_TYPE != MONITOREA_PAR && RDF_TYPE != NIVEL_RIESGO_PREFERIDO
    ensures RDF_TYPE != HORIZONTE_TEMPORAL && RDF_TYPE != UTILIZA_CONFIG_INDICADOR
    ensures NOMBRE_ESTRATEGIA != MONITOREA_PAR && NOMBRE_ESTRATEGIA != NIVEL_RIESGO_PREFERIDO
    ensures NOMBRE_ESTRATEGIA != HORIZONTE_TEMPORAL && NOMBRE_ESTRATEGIA != UTILIZA_CONFIG_INDICADOR
    ensures MONITOREA_PAR != NIVEL_RIESGO_PREFERIDO && MONITOREA_PAR != HORIZONTE_TEMPORAL
    ensures MONITOREA_PAR != UTILIZA_CONFIG_INDICADOR
    ensures NIVEL_RIESGO_PREFERIDO != HORIZONTE_TEMPORAL && NIVEL_RIESGO_PREFERIDO != UTILIZA_CONFIG_INDICADOR
    ensures HORIZONTE_TEMPORAL != UTILIZA_CONFIG_INDICADOR
  {
    assert RDF_TYPE.iri[11] == 'w';
    assert forall n :: TradeUri(n).iri[..|TRADE_NS|] == TRADE_NS;
    assert TRADE_NS[11] == 'e';
  }

  /** The objects of `(s, p, ?)` after `s` is redefined are those of the new facts. */
  lemma ObjectsAfterRedefine(g: set<Triple>, s: Term, facts: set<Triple>, p: Term)
    requires forall t | t in facts :: t.s == s
    ensures ObjectsOf(Redefined(g, s, facts), s, p) == set t | t in facts && t.p == p :: t.o
  {
    var g' := Redefined(g, s, facts);
    assert SubjectFacts(g', s) == facts;
    forall o | o in ObjectsOf(g', s, p) ensures o in set t | t in facts && t.p == p :: t.o {
      var t :| t in g' && t.s == s && t.p == p && t.o == o;
      assert t in SubjectFacts(g', s);
    }
    forall o | o in (set t | t in facts && t.p == p :: t.o) ensures o in ObjectsOf(g', s, p) {
      var t :| t in facts && t.p == p && t.o == o;
      assert t in SubjectFacts(g', s);
    }
  }

  /** The objects the new facts give each predicate of the strategy. */
  function ExpectedObjects(p: Term, display: string, pairLocal: string, configs: seq<string>,
                           risk: string, horizon: string): set<Term> {
    if p == RDF_TYPE then {ESTRATEGIA}
    else if p == NOMBRE_ESTRATEGIA then {Lit(display, "", "es")}
    else if p == MONITOREA_PAR then {TradeUri(pairLocal)}
    else if p == NIVEL_RIESGO_PREFERIDO then {PlainLiteral(risk)}
    else if p == HORIZONTE_TEMPORAL then {PlainLiteral(horizon)}
    else if p == UTILIZA_CONFIG_INDICADOR then ListedConfigs(configs)
    else {}
  }

  lemma FactObject(localName: string, display: string, pairLocal: string, configs: seq<string>,
                   risk: string, horizon: string, t: Triple)
    requires t in StrategyFacts(localName, display, pairLocal, configs, risk, horizon)
    ensures t.o in ExpectedObjects(t.p, display, pairLocal, configs, risk, horizon)
  {
    var s := TradeUri(localName);
    if t in ConfigFacts(s, configs) {
      ConfigFactObject(s, display, pairLocal, configs, risk, horizon, t);
    } else {
      CoreFactObject(s, display, pairLocal, configs, risk, horizon, t);
    }
  }

  lemma ConfigFactObject(s: Term, display: string, pairLocal: string, configs: seq<string>,
                         risk: string, horizon: string, t: Triple)
    requires t in ConfigFacts(s, configs)
    ensures t.o in ExpectedObjects(t.p, display, pairLocal, configs, risk, horizon)
  {
    VocabularyDistinct();
    var c :| c in configs && t == Triple(s, UTILIZA_CONFIG_INDICADOR, TradeUri(c));
    assert t.o in ListedConfigs(configs);
  }

  lemma CoreFactObject(s: Term, display: string, pairLocal: string, configs: seq<string>,
                       risk: string, horizon: string, t: Triple)
    requires t in CoreFacts(s, display, pairLocal, risk, horizon)
    ensures t.o in ExpectedObjects(t.p, display, pairLocal, configs, risk, horizon)
  {
    VocabularyDistinct();
  }

  lemma ExpectedFact(localName: string, display: string, pairLocal: string, configs: seq<string>,
                     risk: string, horizon: string, p: Term, o: Term)
    requires o in ExpectedObjects(p, display, pairLocal, configs, risk, horizon)
    ensures Triple(TradeUri(localName), p, o) in StrategyFacts(localName, display, pairLocal, configs, risk, horizon)
  {
    var s := TradeUri(localName);
    if p == UTILIZA_CONFIG_INDICADOR && p != RDF_TYPE && p != NOMBRE_ESTRATEGIA && p != MONITOREA_PAR
       && p != NIVEL_RIESGO_PREFERIDO && p != HORIZONTE_TEMPORAL {
      var c :| c in configs && o == TradeUri(c);
      assert Triple(s, p, o) in ConfigFacts(s, configs);
    }
  }

  /**
   * After a redefinition the strategy has the type fact, exactly one name, pair, risk level and
   * horizon, and one `utilizaConfigIndicador` fact per distinct listed config.
   */
  lemma DefinedObjects(g: set<Triple>, localName: string, display: string, pairLocal: string,
                       configs: seq<string>, risk: string, horizon: string, p: Term)
    ensures var s := TradeUri(localName);
      var g' := Redefined(g, s, StrategyFacts(localName, display, pairLocal, configs, risk, horizon));
      ObjectsOf(g', s, p) == ExpectedObjects(p, display, pairLocal, configs, risk, horizon)
  {
    var s := TradeUri(localName);
    var facts := StrategyFacts(localName, display, pairLocal, configs, risk, horizon);
    var expected := ExpectedObjects(p, display, pairLocal, configs, risk, horizon);
    ObjectsAfterRedefine(g, s, facts, p);
    forall o | o in (set t | t in facts && t.p == p :: t.o) ensures o in expected {
      var t :| t in facts && t.p == p && t.o == o;
      FactObject(localName, display, pairLocal, configs, risk, horizon, t);
    }
    forall o | o in expected ensures o in (set t | t in facts && t.p == p :: t.o) {
      ExpectedFact(localName, display, pairLocal, configs, risk, horizon, p, o);
      assert Triple(s, p, o) in facts;
    }
  }

  /** A redefinition leaves every fact about any other subject as it was, and keeps no stale fact. */
  lemma RedefineFrame(g: set<Triple>, localName: string, display: string, pairLocal: string,
                      configs: seq<string>, risk: string, horizon: string, t: Triple)
    ensures var s := TradeUri(localName);
      var facts := StrategyFacts(localName, display, pairLocal, configs, risk, horizon);
      var g' := Redefined(g, s, facts);
      && (t.s != s ==> (t in g' <==> t in g))
      && (t.s == s ==> (t in g' <==> t in facts))
  {
    var s := TradeUri(localName);
    var facts := StrategyFacts(localName, display, pairLocal, configs, risk, horizon);
    var g' := Redefined(g, s, facts);
    if t.s == s {
      assert t in g' <==> t in SubjectFacts(g', s);
    }
  }

  /** Facts about subjects other than the strategy keep their asset symbols through a redefinition. */
  lemma PairSymbolsKept(g: set<Triple>, s: Term, facts: set<Triple>, pair: Term, symbols: (Term, Term))
    requires forall t | t in facts :: t.s == s
    requires forall t | t in g && t.s == s :: t.p != TIENE_ACTIVO_BASE && t.p != TIENE_ACTIVO_COTIZACION && t.p != SIMBOLO_CRIPTO
    requires symbols in PairSymbols(g, pair)
    ensures symbols in PairSymbols(Redefined(g, s, facts), pair)
  {
    var g' := Redefined(g, s, facts);
    var baseAsset, quoteAsset :|
      && baseAsset in ObjectsOf(g, pair, TIENE_ACTIVO_BASE)
      && quoteAsset in ObjectsOf(g, pair, TIENE_ACTIVO_COTIZACION)
      && symbols.0 in ObjectsOf(g, baseAsset, SIMBOLO_CRIPTO)
      && symbols.1 in ObjectsOf(g, quoteAsset, SIMBOLO_CRIPTO);
    var t1 :| t1 in g && t1.s == pair && t1.p == TIENE_ACTIVO_BASE && t1.o == baseAsset;
    var t2 :| t2 in g && t2.s == pair && t2.p == TIENE_ACTIVO_COTIZACION && t2.o == quoteAsset;
    var t3 :| t3 in g && t3.s == baseAsset && t3.p == SIMBOLO_CRIPTO && t3.o == symbols.0;
    var t4 :| t4 in g && t4.s == quoteAsset && t4.p == SIMBOLO_CRIPTO && t4.o == symbols.1;
    assert t1 in g' && t2 in g' && t3 in g' && t4 in g';
    assert baseAsset in ObjectsOf(g', pair, TIENE_ACTIVO_BASE);
    assert quoteAsset in ObjectsOf(g', pair, TIENE_ACTIVO_COTIZACION);
    assert symbols.0 in ObjectsOf(g', baseAsset, SIMBOLO_CRIPTO);
    assert symbols.1 in ObjectsOf(g', quoteAsset, SIMBOLO_CRIPTO);
  }

  /**
   * A strategy just defined resolves to at least one group, provided its pair has base and quote
   * assets with symbols, and those facts are not about the strategy itself.
   */
  lemma DefinedStrategyResolves(g: set<Triple>, localName: string, display: string, pairLocal: string,
                                configs: seq<string>, risk: string, horizon: string)
    requires forall t | t in g && t.s == TradeUri(localName) ::
      t.p != TIENE_ACTIVO_BASE && t.p != TIENE_ACTIVO_COTIZACION && t.p != SIMBOLO_CRIPTO
    requires PairSymbols(g, TradeUri(pairLocal)) != {}
    ensures var s := TradeUri(localName);
      StrategyRows(Redefined(g, s, StrategyFacts(localName, display, pairLocal, configs, risk, horizon)), s) != {}
  {
    var s := TradeUri(localName);
    var facts := StrategyFacts(localName, display, pairLocal, configs, risk, horizon);
    var g' := Redefined(g, s, facts);
    var pair := TradeUri(pairLocal);
    VocabularyDistinct();
    DefinedObjects(g, localName, display, pairLocal, configs, risk, horizon, NOMBRE_ESTRATEGIA);
    DefinedObjects(g, localName, display, pairLocal, configs, risk, horizon, MONITOREA_PAR);
    DefinedObjects(g, localName, display, pairLocal, configs, risk, horizon, NIVEL_RIESGO_PREFERIDO);
    DefinedObjects(g, localName, display, pairLocal, configs, risk, horizon, HORIZONTE_TEMPORAL);
    assert Triple(s, RDF_TYPE, ESTRATEGIA) in facts;
    var symbols :| symbols in PairSymbols(g, pair);
    PairSymbolsKept(g, s, facts, pair, symbols);
    var name, risk', horizon' := Lit(display, "", "es"), PlainLiteral(risk), PlainLiteral(horizon);
    assert name in ObjectsOf(g', s, NOMBRE_ESTRATEGIA);
    assert pair in ObjectsOf(g', s, MONITOREA_PAR);
    assert risk' in ObjectsOf(g', s, NIVEL_RIESGO_PREFERIDO);
    assert horizon' in ObjectsOf(g', s, HORIZONTE_TEMPORAL);
    assert Row(name, pair, symbols.0, symbols.1, risk', horizon') in StrategyRows(g', s);
  }

  lemma NoCommaInTradeNs()
    ensures ',' !in TRADE_NS
  {
    assert forall i | 0 <= i < |TRADE_NS| :: TRADE_NS[i] != ',';
  }

  /** The URI texts of the listed configs, as the resolver's aggregate sees them. */
  lemma DefinedConfigUriTexts(g: set<Triple>, localName: string, display: string, pairLocal: string,
                              configs: seq<string>, risk: string, horizon: string)
    ensures var s := TradeUri(localName);
      ConfigUriTexts(Redefined(g, s, StrategyFacts(localName, display, pairLocal, configs, risk, horizon)), s)
      == ListedUris(configs)
  {
    var s := TradeUri(localName);
    var g' := Redefined(g, s, StrategyFacts(localName, display, pairLocal, configs, risk, horizon));
    VocabularyDistinct();
    DefinedObjects(g, localName, display, pairLocal, configs, risk, horizon, UTILIZA_CONFIG_INDICADOR);
    var objects := ObjectsOf(g', s, UTILIZA_CONFIG_INDICADOR);
    assert objects == ListedConfigs(configs);
    forall u | u in ListedUris(configs) ensures u in ConfigUriTexts(g', s) {
      var c :| c in configs && u == TRADE_NS + c;
      assert TradeUri(c) in objects;
    }
  }

  lemma {:induction false} EnumeratedMembers<T>(order: seq<T>, items: set<T>)
    requires Enumerates(order, items)
    ensures forall x :: x in order <==> x in items
    ensures items == {} <==> order == []
  {
    forall x ensures x in order <==> x in items {
      assert x in order <==> x in multiset(order);
    }
    assert |multiset(order)| == |order|;
    assert |multiset(items)| == |items|;
  }

  /** Any group found for a strategy just defined carries the name, pair, risk level and horizon written. */
  lemma DefinedRow(g: set<Triple>, localName: string, display: string, pairLocal: string,
                   configs: seq<string>, risk: string, horizon: string, row: Row)
    requires var s := TradeUri(localName);
      row in StrategyRows(Redefined(g, s, StrategyFacts(localName, display, pairLocal, configs, risk, horizon)), s)
    ensures row.name == Lit(display, "", "es") && row.pair == TradeUri(pairLocal)
    ensures row.risk == PlainLiteral(risk) && row.horizon == PlainLiteral(horizon)
  {
    VocabularyDistinct();
    DefinedObjects(g, localName, display, pairLocal, configs, risk, horizon, NOMBRE_ESTRATEGIA);
    DefinedObjects(g, localName, display, pairLocal, configs, risk, horizon, MONITOREA_PAR);
    DefinedObjects(g, localName, display, pairLocal, configs, risk, horizon, NIVEL_RIESGO_PREFERIDO);
    DefinedObjects(g, localName, display, pairLocal, configs, risk, horizon, HORIZONTE_TEMPORAL);
  }

  /** The URI text of a listed config has no `','` and starts with the non-blank `'h'` of `http`. */
  lemma TradeTextShape(configs: seq<string>, u: string)
    requires forall c | c in configs :: ',' !in c
    requires u in ListedUris(configs)
    ensures ',' !in u && |u| > 0 && u[0] == 'h' && !IsBlank(u)
  {
    NoCommaInTradeNs();
    var c :| c in configs && u == TRADE_NS + c;
    assert !IsSpace(u[0]);
  }

  /** Splitting a joined enumeration of config URI texts gives the enumeration back. */
  lemma ConfigListOfJoin(configs: seq<string>, uriOrder: seq<string>, nameText: string)
    requires forall c | c in configs :: ',' !in c
    requires |uriOrder| >= 1
    requires forall k | 0 <= k < |uriOrder| :: uriOrder[k] in ListedUris(configs)
    ensures ConfigList(Join(uriOrder, ","), nameText) == ConfigEntries(uriOrder, NameSlots(nameText, |uriOrder|))
    ensures NonBlankPieces(uriOrder) == Elements(uriOrder)
  {
    JoinedUris(configs, uriOrder);
    ConfigListOfSplit(Join(uriOrder, ","), nameText, uriOrder);
    NonBlankPiecesAll(uriOrder);
  }

  /** The joined config URI texts are not blank and split back into the pieces, none of them blank. */
  lemma JoinedUris(configs: seq<string>, uriOrder: seq<string>)
    requires forall c | c in configs :: ',' !in c
    requires |uriOrder| >= 1
    requires forall k | 0 <= k < |uriOrder| :: uriOrder[k] in ListedUris(configs)
    ensures !IsBlank(Join(uriOrder, ",")) && Split(Join(uriOrder, ","), ",") == uriOrder
    ensures forall k | 0 <= k < |uriOrder| :: !IsBlank(uriOrder[k])
  {
    OrderPiecesShape(configs, uriOrder);
    JoinedUrisSplit(uriOrder);
    JoinedUrisNotBlank(configs, uriOrder);
  }

  /** Config URI texts without a `','` split back out of their join. */
  lemma JoinedUrisSplit(uriOrder: seq<string>)
    requires |uriOrder| >= 1
    requires forall k | 0 <= k < |uriOrder| :: ',' !in uriOrder[k]
    ensures Split(Join(uriOrder, ","), ",") == uriOrder
  {
    SplitJoin(uriOrder, ',');
    assert [','] == ",";
  }

  /** A join that starts with a listed config URI text is not blank. */
  lemma JoinedUrisNotBlank(configs: seq<string>, uriOrder: seq<string>)
    requires forall c | c in configs :: ',' !in c
    requires |uriOrder| >= 1 && uriOrder[0] in ListedUris(configs)
    ensures !IsBlank(Join(uriOrder, ","))
  {
    TradeTextShape(configs, uriOrder[0]);
    JoinNotBlank(uriOrder, ",");
  }

  /** A non-blank URI text gives the entries of its pieces. */
  lemma ConfigListOfSplit(uriText: string, nameText: string, uris: seq<string>)
    requires !IsBlank(uriText) && Split(uriText, ",") == uris
    ensures ConfigList(uriText, nameText) == ConfigEntries(uris, NameSlots(nameText, |uris|))
  {
  }

  lemma OrderPiecesShape(configs: seq<string>, uriOrder: seq<string>)
    requires forall c | c in configs :: ',' !in c
    requires forall k | 0 <= k < |uriOrder| :: uriOrder[k] in ListedUris(configs)
    ensures forall k | 0 <= k < |uriOrder| :: ',' !in uriOrder[k]
    ensures forall k | 0 <= k < |uriOrder| :: !IsBlank(uriOrder[k])
  {
    forall k | 0 <= k < |uriOrder| ensures ',' !in uriOrder[k] && !IsBlank(uriOrder[k]) {
      TradeTextShape(configs, uriOrder[k]);
    }
  }

  lemma NonBlankPiecesAll(uris: seq<string>)
    requires forall k | 0 <= k < |uris| :: !IsBlank(uris[k])
    ensures NonBlankPieces(uris) == Elements(uris)
  {
    forall u | u in Elements(uris) ensures u in NonBlankPieces(uris) {
      var k :| 0 <= k < |uris| && uris[k] == u;
    }
  }

  /** Entries whose URIs are exactly the listed configs' URIs have exactly their local ids. */
  lemma LocalNamesOfEntries(configs: seq<string>, list: seq<ConfigEntry>)
    requires forall c | c in configs :: '#' !in c
    requires forall e | e in list :: e.localName == LocalName(e.uri)
    requires EntryUris(list) == ListedUris(configs)
    ensures EntryLocalNames(list) == Elements(configs)
  {
    var uris := EntryUris(list);
    forall e | e in list ensures e.localName in Elements(configs) {
      assert e.uri in uris;
      var c :| c in configs && e.uri == TRADE_NS + c;
      TradeUriLocalName(c);
    }
    forall c | c in configs ensures c in EntryLocalNames(list) {
      assert TRADE_NS + c in uris;
      var e :| e in list && e.uri == TRADE_NS + c;
      TradeUriLocalName(c);
    }
  }

  lemma ListedUrisEmpty(configs: seq<string>)
    ensures ListedUris(configs) == {} <==> configs == []
  {
    if configs != [] {
      assert TRADE_NS + configs[0] in ListedUris(configs);
    }
  }

  /** The URIs of the config list built from a non-empty enumeration are the enumerated texts. */
  lemma ConfigUrisOfEnumeration(configs: seq<string>, uriOrder: seq<string>, nameText: string)
    requires forall c | c in configs :: ',' !in c
    requires |uriOrder| >= 1
    requires forall x :: x in uriOrder <==> x in ListedUris(configs)
    ensures EntryUris(ConfigList(Join(uriOrder, ","), nameText)) == ListedUris(configs)
  {
    forall k | 0 <= k < |uriOrder| ensures uriOrder[k] in ListedUris(configs) {
      assert uriOrder[k] in uriOrder;
    }
    EntryUrisOfJoin(configs, uriOrder, nameText);
    assert Elements(uriOrder) == ListedUris(configs);
  }

  lemma EntryUrisOfJoin(configs: seq<string>, uriOrder: seq<string>, nameText: string)
    requires forall c | c in configs :: ',' !in c
    requires |uriOrder| >= 1
    requires forall k | 0 <= k < |uriOrder| :: uriOrder[k] in ListedUris(configs)
    ensures EntryUris(ConfigList(Join(uriOrder, ","), nameText)) == Elements(uriOrder)
  {
    ConfigListOfJoin(configs, uriOrder, nameText);
    var entries := ConfigEntries(uriOrder, NameSlots(nameText, |uriOrder|));
    assert EntryUris(entries) == NonBlankPieces(uriOrder);
  }

  /**
   * The config list built from any enumeration of the URI texts of the listed configs holds exactly
   * those URIs and their local ids (local ids without `','` or `'#'`), whatever the name text; no
   * listed config gives an empty list.
   */
  lemma ConfigListOfDefined(configs: seq<string>, uriOrder: seq<string>, nameText: string)
    requires forall c | c in configs :: ',' !in c && '#' !in c
    requires Enumerates(uriOrder, ListedUris(configs))
    ensures var list := ConfigList(Join(uriOrder, ","), nameText);
      && EntryUris(list) == ListedUris(configs)
      && EntryLocalNames(list) == Elements(configs)
  {
    var wanted := ListedUris(configs);
    EnumeratedMembers(uriOrder, wanted);
    var list := ConfigList(Join(uriOrder, ","), nameText);
    ListedUrisEmpty(configs);
    if uriOrder == [] {
      assert configs == [];
      assert list == [];
    } else {
      ConfigUrisOfEnumeration(configs, uriOrder, nameText);
      LocalNamesOfEntries(configs, list);
    }
  }

  /**
   * Define, then resolve: whatever group `LIMIT 1` picks and in whatever order the aggregates list
   * their values, the record gives back the display name, risk level, horizon and pair that were
   * written, and the set of config URIs and local ids that were listed (local ids without `','` or
   * `'#'`). No listed config gives an empty config list, not `None`.
   */
  lemma DefineThenResolve(g: set<Triple>, localName: string, display: string, pairLocal: string,
                          configs: seq<string>, risk: string, horizon: string,
                          row: Row, uriOrder: seq<string>, nameOrder: seq<Term>)
    requires forall c | c in configs :: ',' !in c && '#' !in c
    requires var s := TradeUri(localName);
      var g' := Redefined(g, s, StrategyFacts(localName, display, pairLocal, configs, risk, horizon));
      row in StrategyRows(g', s) && Enumerates(uriOrder, ConfigUriTexts(g', s))
    ensures var rec := Resolved(localName, row, Join(uriOrder, ","), Join(Texts(nameOrder, Lexical), "||"));
      && rec.displayName == display && rec.risk == risk && rec.horizon == horizon
      && rec.pairUri == TRADE_NS + pairLocal
      && EntryUris(rec.configs) == ListedUris(configs)
      && EntryLocalNames(rec.configs) == Elements(configs)
  {
    DefinedRow(g, localName, display, pairLocal, configs, risk, horizon, row);
    DefinedConfigUriTexts(g, localName, display, pairLocal, configs, risk, horizon);
    ConfigListOfDefined(configs, uriOrder, Join(Texts(nameOrder, Lexical), "||"));
  }
}
