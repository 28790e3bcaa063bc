/**
 * The business tools the agent may call (tools.py). All of them are pure:
 * a string normalisation, a rate table with a default, an integer product
 * and fixed or templated replies.
 */
module Tools {
  import opened Wrappers
  import opened Text

  // ----- calcular_costo_mano_obra ------------------------------------------

  /** `tipo_trabajador.lower().strip().replace('ó', 'o')`. */
  function NormalizeWorkerType(tipo: string): string
  {
    ReplaceChar(Strip(Lower(tipo)), 'ó', 'o')
  }

  /** A normalised worker type has no capitals, no `ó` and no white space at either end. */
  lemma NormalizedForm(tipo: string)
    ensures var r := NormalizeWorkerType(tipo);
      && (forall i :: 0 <= i < |r| ==> !IsUpper(r[i]) && r[i] != 'ó')
      && (|r| > 0 ==> !IsSpace(r[0]) && !IsSpace(r[|r| - 1]))
      && |r| <= |tipo|
  {
    NormalizedLetters(tipo);
    NormalizedEnds(tipo);
  }

  lemma NormalizedLetters(tipo: string)
    ensures var r := NormalizeWorkerType(tipo);
      forall i :: 0 <= i < |r| ==> !IsUpper(r[i]) && r[i] != 'ó'
  {
    var stripped := Strip(Lower(tipo));
    var r := ReplaceChar(stripped, 'ó', 'o');
    StripNoCapitals(Lower(tipo));
    forall i | 0 <= i < |r| ensures !IsUpper(r[i]) && r[i] != 'ó' {
      assert r[i] == 'o' || r[i] == stripped[i];
    }
  }

  lemma NormalizedEnds(tipo: string)
    ensures var r := NormalizeWorkerType(tipo);
      (|r| > 0 ==> !IsSpace(r[0]) && !IsSpace(r[|r| - 1])) && |r| <= |tipo|
  {
    var lowered := Lower(tipo);
    var stripped := Strip(lowered);
    assert |stripped| <= |lowered| == |tipo|;
    FoldKeepsEnds(stripped);
  }

  /** Folding `ó` into `o` keeps both ends free of white space. */
  lemma FoldKeepsEnds(s: string)
    requires |s| > 0 ==> !IsSpace(s[0]) && !IsSpace(s[|s| - 1])
    ensures var r := ReplaceChar(s, 'ó', 'o');
      |r| > 0 ==> !IsSpace(r[0]) && !IsSpace(r[|r| - 1])
  {
    var r := ReplaceChar(s, 'ó', 'o');
    if |r| > 0 {
      assert r[0] == 'o' || r[0] == s[0];
      assert r[|r| - 1] == 'o' || r[|r| - 1] == s[|s| - 1];
    }
  }

  /** Normalising an already normalised worker type changes nothing. */
  lemma NormalizeIdempotent(tipo: string)
    ensures NormalizeWorkerType(NormalizeWorkerType(tipo)) == NormalizeWorkerType(tipo)
  {
    var n := NormalizeWorkerType(tipo);
    NormalizedForm(tipo);
    LowerNoCapitals(n);
    StripTrimmed(n);
    assert 'ó' !in n;
    ReplaceAbsent(n, 'ó', 'o');
  }

  /** The surrounding spaces go, the capital and the accent fold: " Peón " names the labourer rate. */
  lemma NormalizePaddedAccented()
    ensures NormalizeWorkerType(" Peón ") == "peon"
  {
    LowerPadded();
    StripPadded();
    FoldAccent();
  }

  /** A capital accented letter folds too: "PEÓN" names the labourer rate. */
  lemma NormalizeCapitalAccented()
    ensures NormalizeWorkerType("PEÓN") == "peon"
  {
    LowerCapitals();
    StripTrimmed("peón");
    FoldAccent();
  }

  lemma LowerPadded() ensures Lower(" Peón ") == " peón " {}
  lemma LowerCapitals() ensures Lower("PEÓN") == "peón" {}
  lemma FoldAccent() ensures ReplaceChar("peón", 'ó', 'o') == "peon" {}
  lemma StripPadded()
    ensures Strip(" peón ") == "peón"
  {
    StripOf(" ", "peón", " ");
    assert " " + "peón" + " " == " peón ";
  }

  /** The hourly rates of the `tarifas` table. */
  const Rates: map<string, int> := map["oficial de primera" := 25, "peon" := 15, "capataz" := 35]

  /** The rate for a worker type the table does not list. */
  const DefaultRate := 20

  /** `tarifas.get(tipo_normalizado, 20)`. */
  function Rate(normalized: string): int
  {
    if normalized in Rates then Rates[normalized] else DefaultRate
  }

  /** The rate of every normalised worker type: three listed ones, 20 for all the rest. */
  lemma RateTable(normalized: string)
    ensures Rate(normalized) == (
      if normalized == "oficial de primera" then 25
      else if normalized == "peon" then 15
      else if normalized == "capataz" then 35
      else 20)
    ensures Rate(normalized) > 0
  {
  }

  /** The crew size when the caller gives none. */
  const DefaultCrew := 1

  /** `cantidad_personas`, defaulting to 1. */
  function CrewSize(cantidad: Option<int>): int
  {
    match cantidad
    case Some(c) => c
    case None => DefaultCrew
  }

  /** `tarifa * horas * cantidad_personas` (Python integers do not overflow). */
  function Total(tarifa: int, horas: int, cantidad: int): int
  {
    tarifa * horas * cantidad
  }

  /** The total for a worker type as the caller spelled it. */
  function LaborTotal(tipo: string, horas: int, cantidad: int): int
  {
    Total(Rate(NormalizeWorkerType(tipo)), horas, cantidad)
  }

  /** No hours or no people cost nothing. */
  lemma LaborTotalZero(tipo: string, horas: int, cantidad: int)
    requires horas == 0 || cantidad == 0
    ensures LaborTotal(tipo, horas, cantidad) == 0
  {
    TotalZero(Rate(NormalizeWorkerType(tipo)), horas, cantidad);
  }

  lemma TotalZero(t: int, h: int, c: int)
    requires h == 0 || c == 0
    ensures Total(t, h, c) == 0
  {
    if h == 0 {
      assert t * h == 0;
    }
  }

  /** More hours or more people never cost less, for one worker type. */
  lemma LaborTotalMonotone(tipo: string, h1: int, c1: int, h2: int, c2: int)
    requires 0 <= h1 <= h2 && 0 <= c1 <= c2
    ensures 0 <= LaborTotal(tipo, h1, c1) <= LaborTotal(tipo, h2, c2)
  {
    var t := Rate(NormalizeWorkerType(tipo));
    RateTable(NormalizeWorkerType(tipo));
    TotalMonotone(t, h1, c1, h2, c2);
  }

  lemma TotalMonotone(t: int, h1: int, c1: int, h2: int, c2: int)
    requires t > 0 && 0 <= h1 <= h2 && 0 <= c1 <= c2
    ensures 0 <= Total(t, h1, c1) <= Total(t, h2, c2)
  {
    MulMonotone(t, h1, h2);
    MulMonotone(c1, t * h1, t * h2);
    MulMonotone(t * h2, c1, c2);
    assert Total(t, h1, c1) == c1 * (t * h1);
    assert Total(t, h2, c2) == (t * h2) * c2;
  }

  lemma MulMonotone(k: int, a: int, b: int)
    requires 0 <= k && 0 <= a <= b
    ensures 0 <= k * a <= k * b
  {
  }

  /** Worker types that normalise alike cost alike, whatever their spelling. */
  lemma LaborTotalBySpelling(t1: string, t2: string, horas: int, cantidad: int)
    requires NormalizeWorkerType(t1) == NormalizeWorkerType(t2)
    ensures LaborTotal(t1, horas, cantidad) == LaborTotal(t2, horas, cantidad)
  {
  }

  const CostPrefix := "El costo estimado para "
  const CostTypeTail := "(s) por"
  const CostHoursTail := " horas es de "
  const CostSuffix := " EUR."

  /** The f-string of `calcular_costo_mano_obra`'s reply. */
  function CostReply(crew: int, tipo: string, horas: int, total: int): string
  {
    CostPrefix + IntToDecimal(crew) + " " + tipo + CostTypeTail + " " + IntToDecimal(horas)
    + CostHoursTail + "$" + IntToDecimal(total) + CostSuffix
  }

  /**
   * `calcular_costo_mano_obra`: the crew size (1 when omitted), the worker
   * type exactly as given, the hours and the total.
   */
  function CalcularCostoManoObra(tipo: string, horas: int, cantidad: Option<int>): string
  {
    var c := CrewSize(cantidad);
    CostReply(c, tipo, horas, LaborTotal(tipo, horas, c))
  }

  /** The fields a cost reply carries, in the order they appear. */
  datatype CostFields = CostFields(crew: int, workerType: string, hours: int, total: int)

  /** Reads the crew size, worker type, hours and total back out of a cost reply. */
  function ParseCostReply(m: string): Option<CostFields>
  {
    var body :- RemovePrefix(m, CostPrefix);
    var core :- RemoveSuffix(body, CostSuffix);
    var atDollar :- SplitAtLast(core, '$');
    var beforeTotal :- RemoveSuffix(atDollar.0, CostHoursTail);
    var atHours :- SplitAtLast(beforeTotal, ' ');
    var crewAndType :- RemoveSuffix(atHours.0, CostTypeTail);
    var atCrew :- SplitAtFirst(crewAndType, ' ');
    var crew :- ParseInt(atCrew.0);
    var hours :- ParseInt(atHours.1);
    var total :- ParseInt(atDollar.1);
    Some(CostFields(crew, atCrew.1, hours, total))
  }

  /** Every field of the template reads back, whatever text the worker type holds. */
  lemma CostReplyFields(crew: int, tipo: string, horas: int, total: int)
    ensures ParseCostReply(CostReply(crew, tipo, horas, total)) == Some(CostFields(crew, tipo, horas, total))
  {
    var cs, hs, ts := IntToDecimal(crew), IntToDecimal(horas), IntToDecimal(total);
    var m := CostReply(crew, tipo, horas, total);
    DecimalHasNoSeparator(crew, ' ');
    DecimalHasNoSeparator(horas, ' ');
    DecimalHasNoSeparator(total, '$');
    var crewAndType := cs + [' '] + tipo;
    var beforeTotal := crewAndType + CostTypeTail + [' '] + hs;
    var core := beforeTotal + CostHoursTail + ['$'] + ts;
    assert m == CostPrefix + (core + CostSuffix);
    assert RemovePrefix(m, CostPrefix) == Some(core + CostSuffix);
    assert RemoveSuffix(core + CostSuffix, CostSuffix) == Some(core);
    SplitAtLastOf(beforeTotal + CostHoursTail, '$', ts);
    assert RemoveSuffix(beforeTotal + CostHoursTail, CostHoursTail) == Some(beforeTotal);
    SplitAtLastOf(crewAndType + CostTypeTail, ' ', hs);
    assert RemoveSuffix(crewAndType + CostTypeTail, CostTypeTail) == Some(crewAndType);
    SplitAtFirstOf(cs, ' ', tipo);
    ParseIntRoundTrip(crew);
    ParseIntRoundTrip(horas);
    ParseIntRoundTrip(total);
  }

  /**
   * The cost reply embeds the worker type un-normalised, together with the
   * crew size (1 when omitted), the hours and the total: all four read back.
   */
  lemma CostReplyRoundTrip(tipo: string, horas: int, cantidad: Option<int>)
    ensures ParseCostReply(CalcularCostoManoObra(tipo, horas, cantidad))
         == Some(CostFields(CrewSize(cantidad), tipo, horas, LaborTotal(tipo, horas, CrewSize(cantidad))))
  {
    var c := CrewSize(cantidad);
    CostReplyFields(c, tipo, horas, LaborTotal(tipo, horas, c));
  }

  // ----- consultar_clima_obra ----------------------------------------------

  const ForecastPrefix := "Pronóstico para "
  const ForecastSuffix := ": Soleado, 22°C. Viento leve. Condiciones perfectas para hormigonado."

  /** The simulated forecast: a fixed sunny report for the given place. */
  function ConsultarClimaObra(ubicacion: string): string
  {
    ForecastPrefix + ubicacion + ForecastSuffix
  }

  /** Reads the place back out of a forecast. */
  function ParseForecastPlace(m: string): Option<string>
  {
    var body :- RemovePrefix(m, ForecastPrefix);
    RemoveSuffix(body, ForecastSuffix)
  }

  /** The forecast names exactly the place it was asked for. */
  lemma ForecastRoundTrip(ubicacion: string)
    ensures ParseForecastPlace(ConsultarClimaObra(ubicacion)) == Some(ubicacion)
  {
    var m := ConsultarClimaObra(ubicacion);
    assert m == ForecastPrefix + (ubicacion + ForecastSuffix);
    assert RemovePrefix(m, ForecastPrefix) == Some(ubicacion + ForecastSuffix);
  }

  /** Different places get different forecasts. */
  lemma ForecastInjective(u1: string, u2: string)
    requires ConsultarClimaObra(u1) == ConsultarClimaObra(u2)
    ensures u1 == u2
  {
    ForecastRoundTrip(u1);
    ForecastRoundTrip(u2);
  }

  // ----- calcular_logistica_entrega ----------------------------------------

  const LogisticsReply := "Distancia: 45km. Tiempo estimado con tráfico: 55 minutos."

  /** The simulated route estimate: one fixed text. */
  function CalcularLogisticaEntrega(origen: string, destino: string): string
  {
    LogisticsReply
  }

  /** The estimate is the same for every origin and destination. */
  lemma LogisticsIgnoresRoute(o1: string, d1: string, o2: string, d2: string)
    ensures CalcularLogisticaEntrega(o1, d1) == CalcularLogisticaEntrega(o2, d2)
  {
  }

  // ----- generar_orden_compra ----------------------------------------------

  const TransactionId := "#99281"
  const OrderPrefix := "ORDEN GENERADA: Compra de "
  const OrderUnits := "unidades de "
  const OrderTotal := " por un total de "
  const OrderSuffix := ". ID Transacción: " + TransactionId + "."

  /**
   * The simulated purchase order. `costoTotal` is the text Python prints for
   * the float `costo_total`.
   */
  function GenerarOrdenCompra(material: string, cantidad: int, costoTotal: string): string
  {
    OrderPrefix + IntToDecimal(cantidad) + " " + OrderUnits + material + OrderTotal + "$" + costoTotal + OrderSuffix
  }

  datatype OrderFields = OrderFields(quantity: int, material: string, total: string)

  /** Reads quantity, material and total back out of an order. */
  function ParseOrder(m: string): Option<OrderFields>
  {
    var body :- RemovePrefix(m, OrderPrefix);
    var core :- RemoveSuffix(body, OrderSuffix);
    var atDollar :- SplitAtLast(core, '$');
    var quantityAndMaterial :- RemoveSuffix(atDollar.0, OrderTotal);
    var atQuantity :- SplitAtFirst(quantityAndMaterial, ' ');
    var material :- RemovePrefix(atQuantity.1, OrderUnits);
    var quantity :- ParseInt(atQuantity.0);
    Some(OrderFields(quantity, material, atDollar.1))
  }

  /**
   * Every order ends with the fixed transaction id, and the quantity, the
   * material and the total read back from it (a printed float holds no `$`).
   */
  lemma OrderRoundTrip(material: string, cantidad: int, costoTotal: string)
    requires '$' !in costoTotal
    ensures var m := GenerarOrdenCompra(material, cantidad, costoTotal);
      |m| >= |OrderSuffix| && m[|m| - |OrderSuffix|..] == OrderSuffix
      && ParseOrder(m) == Some(OrderFields(cantidad, material, costoTotal))
  {
    var qs := IntToDecimal(cantidad);
    DecimalHasNoSeparator(cantidad, ' ');
    var m := GenerarOrdenCompra(material, cantidad, costoTotal);
    var qm := qs + [' '] + (OrderUnits + material);
    var core := qm + OrderTotal + ['$'] + costoTotal;
    assert m == OrderPrefix + (core + OrderSuffix);
    assert RemovePrefix(m, OrderPrefix) == Some(core + OrderSuffix);
    assert RemoveSuffix(core + OrderSuffix, OrderSuffix) == Some(core);
    SplitAtLastOf(qm + OrderTotal, '$', costoTotal);
    assert RemoveSuffix(qm + OrderTotal, OrderTotal) == Some(qm);
    SplitAtFirstOf(qs, ' ', OrderUnits + material);
    assert RemovePrefix(OrderUnits + material, OrderUnits) == Some(material);
    ParseIntRoundTrip(cantidad);
  }
}
