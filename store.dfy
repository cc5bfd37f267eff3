/**
 * The fact store (`rdf_utils/rdf_manager_trading.py`): an in-memory RDF graph held as a set of
 * triples, the `trade` namespace helpers, the vocabulary of the trading ontology, and the
 * `RDFManagerTrading` object whose methods add facts, retract-then-insert the current price of a
 * market pair, run a query without raising, and save.
 */
module Store {
  import opened Wrappers
  import opened Text

  /** An RDF term: an IRI, or a literal kept as its lexical text with its datatype IRI and language tag. */
  datatype Term = Iri(iri: string) | Lit(lexical: string, dtype: string, lang: string)

  datatype Triple = Triple(s: Term, p: Term, o: Term)

  const TRADE_BASE := "http://www.example.org/trading"
  /** The `trade` namespace. */
  const TRADE_NS := TRADE_BASE + "#"
  const RDF_NS := "http://www.w3.org/1999/02/22-rdf-syntax-ns#"
  const XSD_NS := "http://www.w3.org/2001/XMLSchema#"
  const XSD_DECIMAL := XSD_NS + "decimal"
  const XSD_DATETIME := XSD_NS + "dateTime"

  /** `NamespaceHelper.get_uri(local_name)`: the IRI of a local name in the `trade` namespace. */
  function TradeUri(localName: string): Term {
    Iri(TRADE_NS + localName)
  }

  /** `RDFManagerTrading.obtener_uri(nombre_entidad, ns_prefix)`. */
  function EntityUri(name: string, prefix: string := "trade"): Term {
    if prefix == "trade" then TradeUri(name)
    else Iri("http://www.example.org/" + prefix + "#" + name)
  }

  /** `str(term)` in Python and `STR(term)` in SPARQL. */
  function Lexical(t: Term): string {
    match t
    case Iri(iri) => iri
    case Lit(lexical, _, _) => lexical
  }

  /** `Literal(x, datatype=XSD.decimal)`, given the text the runtime renders `x` as. */
  function DecimalLiteral(text: string): Term {
    Lit(text, XSD_DECIMAL, "")
  }

  /** `Literal(text)`. */
  function PlainLiteral(text: string): Term {
    Lit(text, "", "")
  }

  // The vocabulary of the trading ontology used by the core.
  const RDF_TYPE := Iri(RDF_NS + "type")
  const ESTRATEGIA := TradeUri("Estrategia")
  const NOMBRE_ESTRATEGIA := TradeUri("nombreEstrategia")
  const MONITOREA_PAR := TradeUri("monitoreaPar")
  const NIVEL_RIESGO_PREFERIDO := TradeUri("nivelRiesgoPreferido")
  const HORIZONTE_TEMPORAL := TradeUri("horizonteTemporal")
  const UTILIZA_CONFIG_INDICADOR := TradeUri("utilizaConfigIndicador")
  const TIENE_ACTIVO_BASE := TradeUri("tieneActivoBase")
  const TIENE_ACTIVO_COTIZACION := TradeUri("tieneActivoCotizacion")
  const SIMBOLO_CRIPTO := TradeUri("simboloCripto")
  const NOMBRE_CONFIG_INDICADOR := TradeUri("nombreConfigIndicador")
  const PRECIO_ACTUAL := TradeUri("precioActual")
  const VALOR_INDICADOR := TradeUri("ValorIndicador")
  const ES_VALOR_DE := TradeUri("esValorDe")
  const SE_APLICA_A := TradeUri("seAplicaA")
  const TIMESTAMP_VALOR := TradeUri("timestampValor")
  const VALOR_NUMERICO := TradeUri("valorNumerico")
  const VALOR_MACD := TradeUri("valorMACD")
  const VALOR_SENAL_MACD := TradeUri("valorSenalMACD")
  const VALOR_HISTOGRAMA_MACD := TradeUri("valorHistogramaMACD")
  const VALOR_BANDA_MEDIA := TradeUri("valorBandaMedia")
  const VALOR_BANDA_SUPERIOR := TradeUri("valorBandaSuperior")
  const VALOR_BANDA_INFERIOR := TradeUri("valorBandaInferior")
  const PERIODO_INDICADOR := TradeUri("periodoIndicador")
  const PERIODO_CORTO := TradeUri("periodoCorto")
  const PERIODO_LARGO := TradeUri("periodoLargo")
  const PERIODO_SENAL := TradeUri("periodoSenal")
  const DESVIACION_ESTANDAR := TradeUri("desviacionEstandar")

  /** The triples of `g` whose subject is `s`: `graph.triples((s, None, None))`. */
  function SubjectFacts(g: set<Triple>, s: Term): set<Triple> {
    set t | t in g && t.s == s
  }

  /** The objects of the `(s, p, ?o)` facts of `g`. */
  function ObjectsOf(g: set<Triple>, s: Term, p: Term): set<Term> {
    set t | t in g && t.s == s && t.p == p :: t.o
  }

  /** A triple matches an rdflib pattern whose `None` positions are wildcards. */
  predicate Matches(t: Triple, s: Option<Term>, p: Option<Term>, o: Option<Term>) {
    && (s.None? || t.s == s.value)
    && (p.None? || t.p == p.value)
    && (o.None? || t.o == o.value)
  }

  /**
   * The graph after `actualizar_precio_par_mercado`: every `(pair, precioActual, *)` fact retracted,
   * then the one new price fact added.
   */
  function WithPrice(g: set<Triple>, pair: Term, priceText: string): (g': set<Triple>)
    ensures ObjectsOf(g', pair, PRECIO_ACTUAL) == {DecimalLiteral(priceText)}
    ensures forall t: Triple | !(t.s == pair && t.p == PRECIO_ACTUAL) :: t in g' <==> t in g
  {
    (set t | t in g && !(t.s == pair && t.p == PRECIO_ACTUAL))
      + {Triple(pair, PRECIO_ACTUAL, DecimalLiteral(priceText))}
  }

  /**
   * A query text embeds an IRI as `<iri>`; the SPARQL grammar's IRIREF production rejects control
   * characters, spaces and the characters `<>"{}|^`\` inside it, and the query then fails to parse.
   */
  predicate ValidIriRef(iri: string) {
    forall i | 0 <= i < |iri| :: iri[i] > ' ' && iri[i] !in "<>\"{}|^`\\"
  }

  /** The in-memory store: `RDFManagerTrading` with its `graph`. */
  class RdfManager {
    /** `self.graph`: the facts, with set semantics. */
    var graph: set<Triple>
    /** How many times `guardar_datos` has been called (serialisation itself is not modelled). */
    ghost var saves: nat
    /** The lexical text the runtime gives `Literal(x, datatype=XSD.decimal)` for a float `x`. */
    const renderDecimal: real -> string

    /** The store after loading: `initial` stands for the facts read from the Turtle files. */
    constructor (initial: set<Triple>, renderDecimal: real -> string)
      ensures graph == initial && saves == 0 && this.renderDecimal == renderDecimal
    {
      graph := initial;
      saves := 0;
      this.renderDecimal := renderDecimal;
    }

    /** `ejecutar_sparql`: the query's result, or `None` instead of an exception when it fails. */
    function ExecuteSparql<R>(query: set<Triple> -> Result<R, string>): (r: Option<R>)
      reads this
      ensures r.None? <==> query(graph).Err?
      ensures r.Some? ==> r.value == query(graph).value
    {
      match query(graph)
      case Ok(rows) => Some(rows)
      case Err(_) => None
    }

    /** `agregar_tripleta`: set insertion; adding a fact already present changes nothing. */
    method AddTriple(t: Triple)
      modifies this`graph
      ensures graph == old(graph) + {t}
      ensures old(t in graph) ==> graph == old(graph)
    {
      graph := graph + {t};
    }

    /** `graph.remove((s, p, o))`, `None` being a wildcard. */
    method Remove(s: Option<Term>, p: Option<Term>, o: Option<Term>)
      modifies this`graph
      ensures graph == set t | t in old(graph) && !Matches(t, s, p, o)
    {
      graph := set t | t in graph && !Matches(t, s, p, o);
    }

    /** `actualizar_precio_par_mercado`: the pair keeps exactly one `precioActual` fact, the new price. */
    method UpdatePairPrice(pair: Term, price: real)
      modifies this`graph
      ensures graph == WithPrice(old(graph), pair, renderDecimal(price))
    {
      Remove(Some(pair), Some(PRECIO_ACTUAL), None);
      AddTriple(Triple(pair, PRECIO_ACTUAL, DecimalLiteral(renderDecimal(price))));
    }

    /** `guardar_datos`: writes the graph out; the facts do not change. */
    method Save()
      modifies this`saves
      ensures saves == old(saves) + 1
    {
      saves := saves + 1;
    }
  }

  // Lemmas

  /** Two price updates of the same pair leave the graph the second one alone would leave. */
  lemma PriceUpdateLastWins(g: set<Triple>, pair: Term, first: string, second: string)
    ensures WithPrice(WithPrice(g, pair, first), pair, second) == WithPrice(g, pair, second)
  {
    var lhs := WithPrice(WithPrice(g, pair, first), pair, second);
    var rhs := WithPrice(g, pair, second);
    forall t | t in lhs ensures t in rhs {
      if t.s == pair && t.p == PRECIO_ACTUAL {
        assert t.o in ObjectsOf(lhs, pair, PRECIO_ACTUAL);
        assert t == Triple(pair, PRECIO_ACTUAL, DecimalLiteral(second));
      }
    }
    forall t | t in rhs ensures t in lhs {
      if t.s == pair && t.p == PRECIO_ACTUAL {
        assert t.o in ObjectsOf(rhs, pair, PRECIO_ACTUAL);
        assert t == Triple(pair, PRECIO_ACTUAL, DecimalLiteral(second));
      }
    }
  }

  /** Distinct local names give distinct `trade` IRIs. */
  lemma TradeUriInjective(a: string, b: string)
    requires TradeUri(a) == TradeUri(b)
    ensures a == b
  {
    assert a == (TRADE_NS + a)[|TRADE_NS|..];
    assert b == (TRADE_NS + b)[|TRADE_NS|..];
  }

  lemma NoHashInTradeBase()
    ensures '#' !in TRADE_BASE
  {
    assert forall i | 0 <= i < |TRADE_BASE| :: TRADE_BASE[i] != '#';
  }

  /** The text after the last `'#'` of `get_uri(n)` is `n` when `n` has no `'#'`. */
  lemma TradeUriLocalName(n: string)
    requires '#' !in n
    ensures LocalName(Lexical(TradeUri(n))) == n
  {
    NoHashInTradeBase();
    LocalNameAfterHash(TRADE_BASE, n);
  }

  /** `obtener_uri` with any prefix builds an IRI whose local name is the entity name. */
  lemma EntityUriLocalName(n: string, prefix: string)
    requires '#' !in n && '#' !in prefix
    ensures LocalName(Lexical(EntityUri(n, prefix))) == n
    ensures EntityUri(n) == TradeUri(n)
  {
    if prefix == "trade" {
      TradeUriLocalName(n);
    } else {
      var base := "http://www.example.org/" + prefix;
      assert forall i | 0 <= i < |"http://www.example.org/"| :: "http://www.example.org/"[i] != '#';
      assert '#' !in base;
      assert "http://www.example.org/" + prefix + "#" + n == base + "#" + n;
      LocalNameAfterHash(base, n);
    }
  }
}
