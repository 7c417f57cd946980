/** The hourly-rate engine: a month of work priced from the hourly rate, hours per
    day, days per week and weeks per month; a down payment given in R$ or in
    percent; the rest split into weekly instalments with a date for each. */
module HourlyCalculations {
  import opened Wrappers
  import opened JsText
  import opened Types

  /** Code this model does not contain: `parseCurrency`, which reads an amount of R$
      typed into a currency field, and the reading of a `YYYY-MM-DD` date as a day
      number (one day is one unit, so adding a week adds 7). */
  datatype External = External(parseCurrency: string -> real, dayNumber: string -> int)

  /** The average number of weeks in a calendar month. */
  const WeeksPerMonth: real := 4.345

  /** The numbers the engine reads from one scenario's text fields; `startDay` is
      `None` for an empty date field. */
  datatype HourlyInputs = HourlyInputs(
    valorHora: real,
    horasPorDia: real,
    diasPorSemana: real,
    semanasPorMes: real,
    entradaReais: real,
    entradaPercentual: real,
    parcelasSemanais: int,
    startDay: Option<int>)

  /** How the engine reads its fields: the currency parser for amounts, `parseFloat`
      for quantities with `|| 0` (`|| 4.345` for weeks per month), the first comma of
      the down-payment percentage read as a decimal point, and `parseInt` with `|| 0`
      for the instalment count. */
  function ParseInputs(s: HourlyScenarioData, ext: External): (p: HourlyInputs)
    ensures p.semanasPorMes != 0.0
    ensures p.startDay.None? <==> s.dataPrimeiraParcela == ""
  {
    HourlyInputs(
      ext.parseCurrency(s.valorHora),
      OrElse(ParseFloat(s.horasPorDia), 0.0),
      OrElse(ParseFloat(s.diasPorSemana), 0.0),
      OrElse(ParseFloat(s.semanasPorMes), WeeksPerMonth),
      ext.parseCurrency(s.entradaReais),
      OrElse(ParseFloat(ReplaceFirst(s.entradaPercentual, ',', '.')), 0.0),
      OrElseInt(ParseInt(s.parcelasSemanais), 0),
      if s.dataPrimeiraParcela == "" then None else Some(ext.dayNumber(s.dataPrimeiraParcela)))
  }

  /** The divide-by-zero guard: a non-positive rate, hours per day or days per week
      leaves the zero record. */
  predicate Blocked(p: HourlyInputs) {
    p.valorHora <= 0.0 || p.horasPorDia <= 0.0 || p.diasPorSemana <= 0.0
  }

  function ScenarioName(id: int): string {
    "Cenário " + IntToString(id)
  }

  /** The record the engine starts from and returns when the guard trips. */
  function ZeroResult(id: int): HourlyScenarioResult {
    HourlyScenarioResult(id, ScenarioName(id), 0.0, 0.0, 0.0, 0.0, 0.0, 0.0, 0.0, 0.0,
                         0, 0.0, 0.0, 0.0, None, None, [])
  }

  /** The first `n` weekly instalment dates from `start`. */
  function WeeklySchedule(start: int, n: nat): seq<int> {
    seq(n, i => start + 7 * i)
  }

  /** Down payment resolution, as (amount, percentage): an amount in R$ wins and
      its percentage of the total is derived from it; otherwise a percentage gives
      the amount; otherwise there is none. */
  function DownPayment(total: real, reaisInput: real, pctInput: real): (d: (real, real))
    requires total != 0.0
    ensures reaisInput > 0.0 ==> d.0 == reaisInput
    ensures reaisInput <= 0.0 && pctInput > 0.0 ==> d.1 == pctInput
    ensures reaisInput <= 0.0 && pctInput <= 0.0 ==> d == (0.0, 0.0)
  {
    if reaisInput > 0.0 then (reaisInput, (reaisInput / total) * 100.0)
    else if pctInput > 0.0 then (total * (pctInput / 100.0), pctInput)
    else (0.0, 0.0)
  }

  /** Whichever way it was given, the down payment is its percentage of the total: an
      amount in R$ is kept and a percentage is kept, and with neither there is none. */
  lemma DownPaymentIsItsPercentage(total: real, reaisInput: real, pctInput: real)
    requires total != 0.0
    ensures var d := DownPayment(total, reaisInput, pctInput);
      && d.0 == total * (d.1 / 100.0)
      && (reaisInput > 0.0 ==> d.0 == reaisInput)
      && (reaisInput <= 0.0 && pctInput > 0.0 ==> d.1 == pctInput)
      && (reaisInput <= 0.0 && pctInput <= 0.0 ==> d == (0.0, 0.0))
  {
    if reaisInput > 0.0 {
      PercentageRecovers(reaisInput, total);
    }
  }

  lemma PercentageRecovers(x: real, total: real)
    requires total != 0.0
    ensures total * (((x / total) * 100.0) / 100.0) == x
  {
  }

  /** What `calculateHourlyScenario` computes, stated in stages: the zero record when
      the guard trips, otherwise the month's values and the financed amount, then
      the weekly instalments. */
  function HourlyResult(id: int, p: HourlyInputs): (r: HourlyScenarioResult)
    requires p.semanasPorMes != 0.0
    ensures r.id == id && r.nome == ScenarioName(id)
  {
    if Blocked(p) then ZeroResult(id)
    else WithInstalments(Financed(id, p), p.parcelasSemanais, p.startDay)
  }

  /** Hours worked in the month. */
  function HorasNoMes(p: HourlyInputs): real {
    p.horasPorDia * p.diasPorSemana * p.semanasPorMes
  }

  /** A day's value: the hours of a day at the hourly rate. */
  function ValorPorDia(p: HourlyInputs): real {
    p.valorHora * p.horasPorDia
  }

  function ValorSemanal(p: HourlyInputs): real {
    ValorPorDia(p) * p.diasPorSemana
  }

  function ValorMensalTotal(p: HourlyInputs): real {
    ValorSemanal(p) * p.semanasPorMes
  }

  /** The month's values, the down payment and the financed amount; the instalment
      fields are still those of the zero record. */
  function Financed(id: int, p: HourlyInputs): (r: HourlyScenarioResult)
    requires p.semanasPorMes != 0.0 && !Blocked(p)
  {
    var total := ValorMensalTotal(p);
    NonZeroProduct(p.valorHora, p.horasPorDia, p.diasPorSemana, p.semanasPorMes);
    var down := DownPayment(total, p.entradaReais, p.entradaPercentual);
    var valorFinanciado := if 0.0 < total - down.0 then total - down.0 else 0.0;
    ZeroResult(id).(
      horasNoMes := HorasNoMes(p), valorPorDia := ValorPorDia(p), valorSemanal := ValorSemanal(p),
      valorMensalTotal := total, totalContrato := total,
      entradaReais := down.0, entradaPercentual := down.1, valorFinanciado := valorFinanciado)
  }

  /** The instalment fields: with a positive count, the weekly instalment and its
      monthly and daily equivalents, and with a start date as well, the dates. */
  function WithInstalments(base: HourlyScenarioResult, n: int, startDay: Option<int>): (r: HourlyScenarioResult)
    ensures r.id == base.id && r.nome == base.nome
    ensures r.horasNoMes == base.horasNoMes && r.valorPorDia == base.valorPorDia
    ensures r.valorSemanal == base.valorSemanal && r.valorMensalTotal == base.valorMensalTotal
    ensures r.entradaReais == base.entradaReais && r.entradaPercentual == base.entradaPercentual
    ensures r.valorFinanciado == base.valorFinanciado && r.totalContrato == base.totalContrato
  {
    if n <= 0 then base
    else
      var weekly := base.valorFinanciado / n as real;
      var priced := base.(numeroParcelas := n, valorParcelaSemanal := weekly,
                          valorMensalEstimado := weekly * WeeksPerMonth, valorDiarioMedio := weekly / 7.0);
      if startDay.None? then priced
      else priced.(dataPrimeiraParcela := startDay,
                   dataUltimaParcela := Some(startDay.value + 7 * (n - 1)),
                   datasSemanais := WeeklySchedule(startDay.value, n))
  }

  lemma NonZeroProduct(rate: real, h: real, d: real, w: real)
    requires rate > 0.0 && h > 0.0 && d > 0.0 && w != 0.0
    ensures rate * h * d * w != 0.0
  {
    assert rate * h > 0.0;
    assert rate * h * d > 0.0;
  }

  /** `calculateHourlyScenario`: reads the scenario's fields, then prices the month. */
  method CalculateHourlyScenario(scenario: HourlyScenarioData, ext: External)
    returns (result: HourlyScenarioResult)
    ensures result == HourlyResult(scenario.id, ParseInputs(scenario, ext))
  {
    var parsed := ParseInputs(scenario, ext);
    result := PriceMonth(scenario.id, parsed);
  }

  /** The body of `calculateHourlyScenario` after its fields are read: starts from the
      zero record, returns it at once when the guard trips, and otherwise fills the
      fields in order, ending with a loop that appends one date per instalment and
      records the last one. */
  method PriceMonth(id: int, parsed: HourlyInputs) returns (result: HourlyScenarioResult)
    requires parsed.semanasPorMes != 0.0
    ensures result == HourlyResult(id, parsed)
  {
    result := ZeroResult(id);
    var valorHora := parsed.valorHora;
    var horasPorDia := parsed.horasPorDia;
    var diasPorSemana := parsed.diasPorSemana;
    var semanasPorMes := parsed.semanasPorMes;
    var entradaReaisInput := parsed.entradaReais;
    var entradaPctInput := parsed.entradaPercentual;
    var parcelasSemanais := parsed.parcelasSemanais;

    if valorHora <= 0.0 || horasPorDia <= 0.0 || diasPorSemana <= 0.0 {
      return;
    }

    result := result.(horasNoMes := horasPorDia * diasPorSemana * semanasPorMes);
    result := result.(valorPorDia := valorHora * horasPorDia);
    result := result.(valorSemanal := result.valorPorDia * diasPorSemana);
    result := result.(valorMensalTotal := result.valorSemanal * semanasPorMes);
    result := result.(totalContrato := result.valorMensalTotal);
    assert result == ZeroResult(id).(
      horasNoMes := HorasNoMes(parsed), valorPorDia := ValorPorDia(parsed),
      valorSemanal := ValorSemanal(parsed), valorMensalTotal := ValorMensalTotal(parsed),
      totalContrato := ValorMensalTotal(parsed));
    NonZeroProduct(valorHora, horasPorDia, diasPorSemana, semanasPorMes);

    var entradaVal, entradaPct := ResolveDownPayment(result.valorMensalTotal, entradaReaisInput, entradaPctInput);
    result := result.(entradaReais := entradaVal, entradaPercentual := entradaPct);
    result := result.(valorFinanciado :=
      if 0.0 < result.valorMensalTotal - result.entradaReais
      then result.valorMensalTotal - result.entradaReais else 0.0);

    assert result == Financed(id, parsed);

    result := AddInstalments(result, parcelasSemanais, parsed.startDay);
  }

  /** The down-payment branch of `calculateHourlyScenario`, as (amount, percentage). */
  method ResolveDownPayment(total: real, entradaReaisInput: real, entradaPctInput: real)
    returns (entradaVal: real, entradaPct: real)
    requires total != 0.0
    ensures (entradaVal, entradaPct) == DownPayment(total, entradaReaisInput, entradaPctInput)
  {
    entradaVal := 0.0;
    entradaPct := 0.0;
    if entradaReaisInput > 0.0 {
      entradaVal := entradaReaisInput;
      entradaPct := (entradaVal / total) * 100.0;
    } else if entradaPctInput > 0.0 {
      entradaPct := entradaPctInput;
      entradaVal := total * (entradaPct / 100.0);
    }
  }

  /** The instalment stage of `calculateHourlyScenario`: with a positive count, the
      weekly instalment and its equivalents, and with a start date as well, a loop
      that appends one date per instalment and records the last one. */
  method AddInstalments(base: HourlyScenarioResult, parcelasSemanais: int, startDay: Option<int>)
    returns (result: HourlyScenarioResult)
    requires base.datasSemanais == [] && base.dataUltimaParcela.None?
    ensures result == WithInstalments(base, parcelasSemanais, startDay)
  {
    result := base;
    if parcelasSemanais > 0 {
      result := result.(numeroParcelas := parcelasSemanais);
      result := result.(valorParcelaSemanal := result.valorFinanciado / parcelasSemanais as real);
      result := result.(valorMensalEstimado := result.valorParcelaSemanal * WeeksPerMonth);
      result := result.(valorDiarioMedio := result.valorParcelaSemanal / 7.0);

      if startDay.Some? {
        var startDate := startDay.value;
        result := result.(dataPrimeiraParcela := Some(startDate));
        ghost var before := result;
        var i := 0;
        while i < parcelasSemanais
          invariant 0 <= i <= parcelasSemanais
          invariant result.datasSemanais == WeeklySchedule(startDate, i)
          invariant result.dataUltimaParcela
                    == if i == parcelasSemanais then Some(startDate + 7 * (parcelasSemanais - 1)) else None
          invariant result == before.(datasSemanais := result.datasSemanais,
                                      dataUltimaParcela := result.dataUltimaParcela)
        {
          var date := startDate + 7 * i;
          result := result.(datasSemanais := result.datasSemanais + [date]);
          if i == parcelasSemanais - 1 {
            result := result.(dataUltimaParcela := Some(date));
          }
          i := i + 1;
        }
      }
    }
  }

  /** The guard is exact: the engine returns the zero record precisely when the
      rate, the hours per day or the days per week is not positive. */
  lemma ZeroExactlyWhenBlocked(id: int, p: HourlyInputs)
    requires p.semanasPorMes != 0.0
    ensures HourlyResult(id, p) == ZeroResult(id) <==> Blocked(p)
  {
    if Blocked(p) {
      assert HourlyResult(id, p) == ZeroResult(id);
    } else {
      FinancedKeepsMonth(id, p);
      NonZeroProduct(p.valorHora, p.horasPorDia, p.diasPorSemana, p.semanasPorMes);
      assert ValorMensalTotal(p) != 0.0;
      assert ZeroResult(id).valorMensalTotal == 0.0;
    }
  }

  /** Past the guard, the month's values and the down payment of the result are
      those of the financed stage. */
  lemma FinancedKeepsMonth(id: int, p: HourlyInputs)
    requires p.semanasPorMes != 0.0 && !Blocked(p)
    ensures var r, f := HourlyResult(id, p), Financed(id, p);
      && r.horasNoMes == HorasNoMes(p) && r.valorPorDia == ValorPorDia(p)
      && r.valorSemanal == ValorSemanal(p) && r.valorMensalTotal == ValorMensalTotal(p)
      && r.totalContrato == ValorMensalTotal(p) && f.totalContrato == ValorMensalTotal(p)
      && r.entradaReais == f.entradaReais && r.entradaPercentual == f.entradaPercentual
      && r.valorFinanciado == f.valorFinanciado
  {
  }

  /** A result's month values agree with each other and with the inputs: a month is
      the hours in it at the hourly rate, a week is a day's value times the days, a
      month is a week's value times the weeks, and the contract total is the month. */
  ghost predicate MonthAgrees(p: HourlyInputs, r: HourlyScenarioResult) {
    && r.valorMensalTotal == p.valorHora * r.horasNoMes
    && r.valorSemanal == r.valorPorDia * p.diasPorSemana
    && r.valorMensalTotal == r.valorSemanal * p.semanasPorMes
    && r.totalContrato == r.valorMensalTotal
  }

  /** Past the guard the month's values agree, and with a positive number of weeks
      the month is worth something. */
  lemma MonthValuesAgree(id: int, p: HourlyInputs)
    requires p.semanasPorMes != 0.0 && !Blocked(p)
    ensures MonthAgrees(p, HourlyResult(id, p))
    ensures p.semanasPorMes > 0.0 ==> HourlyResult(id, p).valorMensalTotal > 0.0
  {
    FinancedKeepsMonth(id, p);
    MonthTransfers(p, HourlyResult(id, p));
  }

  /** Any record carrying the month's stage values agrees with the inputs. */
  lemma MonthTransfers(p: HourlyInputs, r: HourlyScenarioResult)
    requires !Blocked(p)
    requires r.horasNoMes == HorasNoMes(p) && r.valorPorDia == ValorPorDia(p)
    requires r.valorSemanal == ValorSemanal(p) && r.valorMensalTotal == ValorMensalTotal(p)
    requires r.totalContrato == ValorMensalTotal(p)
    ensures MonthAgrees(p, r)
    ensures p.semanasPorMes > 0.0 ==> r.valorMensalTotal > 0.0
  {
    Associate4(p.valorHora, p.horasPorDia, p.diasPorSemana, p.semanasPorMes);
    EqualProducts(p.valorHora, r.horasNoMes, p.valorHora, HorasNoMes(p));
    EqualProducts(r.valorPorDia, p.diasPorSemana, ValorPorDia(p), p.diasPorSemana);
    EqualProducts(r.valorSemanal, p.semanasPorMes, ValorSemanal(p), p.semanasPorMes);
    if p.semanasPorMes > 0.0 {
      PositiveProduct(p.valorHora, p.horasPorDia, p.diasPorSemana, p.semanasPorMes);
    }
  }

  lemma Associate4(a: real, b: real, c: real, d: real)
    ensures a * b * c * d == a * (b * c * d)
  {
  }

  lemma PositiveProduct(a: real, b: real, c: real, d: real)
    requires a > 0.0 && b > 0.0 && c > 0.0 && d > 0.0
    ensures a * b * c * d > 0.0
  {
    assert a * b > 0.0;
    assert a * b * c > 0.0;
  }

  lemma EqualProducts(a: real, b: real, c: real, d: real)
    requires a == c && b == d
    ensures a * b == c * d
  {
  }

  /** The down payment and the financed amount split the contract: the financed
      amount is never negative, the two add up to the total when the down payment
      does not exceed it, nothing is financed when it does, and the down payment is
      its percentage of the total. */
  ghost predicate SplitsContract(r: HourlyScenarioResult) {
    && r.valorFinanciado >= 0.0
    && r.entradaReais == r.totalContrato * (r.entradaPercentual / 100.0)
    && (r.entradaReais <= r.totalContrato ==> r.entradaReais + r.valorFinanciado == r.totalContrato)
    && (r.entradaReais >= r.totalContrato ==> r.valorFinanciado == 0.0)
  }

  /** Every result, the zero record included, splits its contract. */
  lemma DownPaymentSplitsContract(id: int, p: HourlyInputs)
    requires p.semanasPorMes != 0.0
    ensures SplitsContract(HourlyResult(id, p))
  {
    if Blocked(p) {
      assert HourlyResult(id, p) == ZeroResult(id);
    } else {
      FinancedKeepsMonth(id, p);
      FinancedSplits(id, p);
      SplitsTransfer(Financed(id, p), HourlyResult(id, p));
    }
  }

  /** The split depends only on the four amounts. */
  lemma SplitsTransfer(f: HourlyScenarioResult, r: HourlyScenarioResult)
    requires SplitsContract(f)
    requires r.entradaReais == f.entradaReais && r.entradaPercentual == f.entradaPercentual
    requires r.totalContrato == f.totalContrato && r.valorFinanciado == f.valorFinanciado
    ensures SplitsContract(r)
  {
  }

  /** The financed stage splits its contract. */
  lemma FinancedSplits(id: int, p: HourlyInputs)
    requires p.semanasPorMes != 0.0 && !Blocked(p)
    ensures SplitsContract(Financed(id, p))
  {
    NonZeroProduct(p.valorHora, p.horasPorDia, p.diasPorSemana, p.semanasPorMes);
    var total, f := ValorMensalTotal(p), Financed(id, p);
    var d := DownPayment(total, p.entradaReais, p.entradaPercentual);
    assert f.entradaReais == d.0 && f.entradaPercentual == d.1 && f.totalContrato == total;
    assert f.valorFinanciado == if 0.0 < total - d.0 then total - d.0 else 0.0;
    SplitsFromDown(f, total, p.entradaReais, p.entradaPercentual);
  }

  /** Any record holding a resolved down payment and the rest of the total splits it. */
  lemma SplitsFromDown(f: HourlyScenarioResult, total: real, reaisInput: real, pctInput: real)
    requires total != 0.0
    requires var d := DownPayment(total, reaisInput, pctInput);
      && f.entradaReais == d.0 && f.entradaPercentual == d.1 && f.totalContrato == total
      && f.valorFinanciado == if 0.0 < total - d.0 then total - d.0 else 0.0
    ensures SplitsContract(f)
  {
    var d := DownPayment(total, reaisInput, pctInput);
    DownPaymentIsItsPercentage(total, reaisInput, pctInput);
    EqualProducts(f.totalContrato, f.entradaPercentual / 100.0, total, d.1 / 100.0);
  }

  /** The weekly instalments pay off exactly the financed amount, with the monthly
      and daily equivalents of one instalment; with no instalments all are zero. */
  ghost predicate InstalmentsCover(r: HourlyScenarioResult) {
    && (r.numeroParcelas > 0 ==> r.valorParcelaSemanal * r.numeroParcelas as real == r.valorFinanciado)
    && (r.numeroParcelas == 0 ==> r.valorParcelaSemanal == 0.0 && r.valorMensalEstimado == 0.0)
    && r.valorMensalEstimado == r.valorParcelaSemanal * WeeksPerMonth
    && r.valorDiarioMedio * 7.0 == r.valorParcelaSemanal
  }

  /** There are as many instalments as the field asked for when it is positive and
      the guard lets the engine run, none otherwise, and they cover the financed amount. */
  lemma InstalmentsCoverFinanced(id: int, p: HourlyInputs)
    requires p.semanasPorMes != 0.0
    ensures HourlyResult(id, p).numeroParcelas
            == (if Blocked(p) || p.parcelasSemanais <= 0 then 0 else p.parcelasSemanais)
    ensures InstalmentsCover(HourlyResult(id, p))
  {
    if Blocked(p) {
      assert HourlyResult(id, p) == ZeroResult(id);
    } else {
      var f := Financed(id, p);
      assert f.numeroParcelas == 0 && f.valorParcelaSemanal == 0.0;
      assert f.valorMensalEstimado == 0.0 && f.valorDiarioMedio == 0.0;
      InstalmentsSplit(f, p.parcelasSemanais, p.startDay);
      assert HourlyResult(id, p) == WithInstalments(f, p.parcelasSemanais, p.startDay);
    }
  }

  /** The instalment stage over any record whose instalment fields are still zero. */
  lemma InstalmentsSplit(base: HourlyScenarioResult, n: int, startDay: Option<int>)
    requires base.numeroParcelas == 0 && base.valorParcelaSemanal == 0.0
    requires base.valorMensalEstimado == 0.0 && base.valorDiarioMedio == 0.0
    ensures WithInstalments(base, n, startDay).numeroParcelas == (if n <= 0 then 0 else n)
    ensures InstalmentsCover(WithInstalments(base, n, startDay))
  {
  }

  /** The schedule of a result: dates exist only with a first date; then there is at
      least one instalment and one date per instalment, the first is the first date, each falls a week after the
      one before, and the last is recorded; without a first date there are none. */
  ghost predicate WeeklyDates(r: HourlyScenarioResult) {
    && (r.dataPrimeiraParcela.Some? ==>
          && r.numeroParcelas > 0 && |r.datasSemanais| == r.numeroParcelas
          && r.datasSemanais[0] == r.dataPrimeiraParcela.value
          && (forall i :: 0 < i < |r.datasSemanais| ==> r.datasSemanais[i] == r.datasSemanais[i - 1] + 7)
          && r.dataUltimaParcela == Some(r.datasSemanais[|r.datasSemanais| - 1]))
    && (r.dataPrimeiraParcela.None? ==> r.datasSemanais == [] && r.dataUltimaParcela.None?)
  }

  /** Dates exist exactly when the engine ran, there are instalments and a start
      date; they then start on the typed date, entry i falls 7·i days after it, and
      they form a weekly schedule. */
  lemma ScheduleIsWeekly(id: int, p: HourlyInputs)
    requires p.semanasPorMes != 0.0
    ensures HourlyResult(id, p).dataPrimeiraParcela.Some?
            <==> !Blocked(p) && p.parcelasSemanais > 0 && p.startDay.Some?
    ensures HourlyResult(id, p).dataPrimeiraParcela.Some? ==>
            && HourlyResult(id, p).dataPrimeiraParcela == p.startDay
            && HourlyResult(id, p).datasSemanais == WeeklySchedule(p.startDay.value, p.parcelasSemanais)
    ensures WeeklyDates(HourlyResult(id, p))
  {
    if Blocked(p) {
      assert HourlyResult(id, p) == ZeroResult(id);
    } else {
      var f := Financed(id, p);
      assert f.dataPrimeiraParcela.None? && f.datasSemanais == [] && f.dataUltimaParcela.None?;
      ScheduleSplit(f, p.parcelasSemanais, p.startDay);
      assert HourlyResult(id, p) == WithInstalments(f, p.parcelasSemanais, p.startDay);
    }
  }

  /** The schedule stage over any record with no dates yet. */
  lemma ScheduleSplit(base: HourlyScenarioResult, n: int, startDay: Option<int>)
    requires base.dataPrimeiraParcela.None? && base.datasSemanais == [] && base.dataUltimaParcela.None?
    ensures WithInstalments(base, n, startDay).dataPrimeiraParcela.Some? <==> n > 0 && startDay.Some?
    ensures WithInstalments(base, n, startDay).dataPrimeiraParcela.Some? ==>
            && WithInstalments(base, n, startDay).dataPrimeiraParcela == startDay
            && WithInstalments(base, n, startDay).datasSemanais == WeeklySchedule(startDay.value, n)
    ensures WeeklyDates(WithInstalments(base, n, startDay))
  {
  }

  /** A worked month: R$ 100 an hour, 8 hours a day, 5 days a week over 4.345 weeks
      is 173.8 hours and R$ 17,380; a 20 % down payment leaves R$ 13,904 to pay in
      4 weekly instalments of R$ 3,476. */
  lemma WorkedMonth()
    ensures var r := HourlyResult(1, HourlyInputs(100.0, 8.0, 5.0, WeeksPerMonth, 0.0, 20.0, 4, Some(0)));
      && r.horasNoMes == 173.8 && r.valorMensalTotal == 17380.0
      && r.entradaReais == 3476.0 && r.valorFinanciado == 13904.0
      && r.valorParcelaSemanal == 3476.0 && r.datasSemanais == [0, 7, 14, 21]
  {
    var p := HourlyInputs(100.0, 8.0, 5.0, WeeksPerMonth, 0.0, 20.0, 4, Some(0));
    var f := Financed(1, p);
    assert f.valorMensalTotal == 17380.0;
    assert f.valorFinanciado == 13904.0;
    assert WeeklySchedule(0, 4) == [0, 7, 14, 21];
  }
}
