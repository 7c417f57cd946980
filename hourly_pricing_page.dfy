/** The hourly page: a list of hourly scenario cards, each started from the page's
    defaults, and the button that prices every card. */
module HourlyPricingPage {
  import opened Wrappers
  import opened JsText
  import opened Types
  import opened ScenarioList
  import opened HourlyCalculations

  /** `createDefaultScenario`: 8 hours a day, 5 days a week, 4.345 weeks a month and
      4 weekly instalments; the rate, the down payment and the date empty. The source
      leaves the R$ down-payment field out of the default record; it is empty here. */
  function CreateDefaultScenario(id: int): (s: HourlyScenarioData)
    ensures s.id == id && s.valorHora == "" && s.entradaPercentual == "" && s.dataPrimeiraParcela == ""
  {
    HourlyScenarioData(id, "", "8", "5", "4.345", "", "", "", "4")
  }

  function HourlyScenarioId(s: HourlyScenarioData): int {
    s.id
  }

  /** The page's state: the typed count and the cards; the results table holds what
      the last press of the button computed. */
  datatype HourlyPageState = HourlyPageState(
    numScenarios: int,
    scenarios: seq<HourlyScenarioData>,
    results: seq<HourlyScenarioResult>)

  function InitialHourlyState(): HourlyPageState {
    HourlyPageState(1, [CreateDefaultScenario(1)], [])
  }

  /** The defaults read as the numbers they show: 8 hours, 5 days, 4.345 weeks and 4
      instalments, with no start date; the rate stays whatever the currency parser
      makes of an empty field, so the card is priced only once a rate is typed. */
  lemma DefaultScenarioReads(id: int, ext: External)
    ensures var p := ParseInputs(CreateDefaultScenario(id), ext);
      && p.horasPorDia == 8.0 && p.diasPorSemana == 5.0 && p.semanasPorMes == 4.345
      && p.parcelasSemanais == 4 && p.startDay.None? && p.entradaPercentual == 0.0
  {
    DefaultTextsRead();
  }

  /** The default texts read as numbers. */
  lemma DefaultTextsRead()
    ensures ParseFloat("8") == Some(8.0) && ParseFloat("5") == Some(5.0)
    ensures ParseFloat("4.345") == Some(4.345) && ParseInt("4") == Some(4)
  {
    ReadsDigits("8", 8);
    ReadsDigits("5", 5);
    ReadsWeeks();
    ReadsInstalments();
  }

  lemma ReadsWeeks()
    ensures ParseFloat("4.345") == Some(4.345)
  {
    ReadsDecimal("4.345", "4", "345");
    WeeksDecimal();
  }

  lemma WeeksDecimal()
    ensures DecimalValue("4", "345") == 4.345
  {
    assert DigitsValue("4") == 4 by { assert "4"[..0] == []; }
    assert DigitsValue("345") == 345 by {
      assert "345"[..2] == "34" && "34"[..1] == "3" && "3"[..0] == [];
    }
    assert Pow10(3) == 1000;
  }

  lemma ReadsInstalments()
    ensures ParseInt("4") == Some(4)
  {
    assert IntToString(4) == "4";
    ParseIntOfIntToString(4);
  }

  lemma ReadsDigits(s: string, n: nat)
    requires |s| == 1 && IsDigit(s[0]) && DigitValue(s[0]) == n
    ensures ParseFloat(s) == Some(n as real)
  {
    assert DigitsValue(s) == n by {
      assert s[..0] == [];
    }
    ParseFloatOfDigits(s);
  }

  /** `handleNumScenariosChange`: a count from 1 to 10 sets the count and resizes the
      list, new cards being default cards numbered on from the old length; an emptied
      field sets the count to 0 and keeps the cards; other text changes nothing. Card
      ids 1..n survive the change. */
  method HandleNumScenariosChange(st: HourlyPageState, text: string) returns (r: HourlyPageState)
    ensures match CountActionOf(text)
      case Resize(n) => r == st.(numScenarios := n, scenarios := Resized(st.scenarios, n, CreateDefaultScenario))
      case ClearCount => r == st.(numScenarios := 0)
      case Ignore => r == st
    ensures IdsSequential(st.scenarios, HourlyScenarioId) ==> IdsSequential(r.scenarios, HourlyScenarioId)
  {
    r := st;
    match CountActionOf(text)
    case Resize(n) =>
      var next := ResizeList(st.scenarios, n, CreateDefaultScenario);
      r := r.(numScenarios := n, scenarios := next);
      if IdsSequential(st.scenarios, HourlyScenarioId) {
        ResizeKeepsIdsSequential(st.scenarios, n, CreateDefaultScenario, HourlyScenarioId);
      }
    case ClearCount =>
      r := r.(numScenarios := 0);
    case Ignore =>
  }

  /** The text fields of an hourly card. */
  datatype HourlyField =
    | ValorHora | HorasPorDia | DiasPorSemana | SemanasPorMes
    | EntradaReais | EntradaPercentual | DataPrimeiraParcela | ParcelasSemanais

  function GetField(s: HourlyScenarioData, f: HourlyField): string {
    match f
    case ValorHora => s.valorHora
    case HorasPorDia => s.horasPorDia
    case DiasPorSemana => s.diasPorSemana
    case SemanasPorMes => s.semanasPorMes
    case EntradaReais => s.entradaReais
    case EntradaPercentual => s.entradaPercentual
    case DataPrimeiraParcela => s.dataPrimeiraParcela
    case ParcelasSemanais => s.parcelasSemanais
  }

  /** `{ ...s, [field]: value }` on an hourly card. */
  function SetField(s: HourlyScenarioData, f: HourlyField, v: string): (r: HourlyScenarioData)
    ensures r.id == s.id
    ensures GetField(r, f) == v
    ensures forall g :: g != f ==> GetField(r, g) == GetField(s, g)
  {
    match f
    case ValorHora => s.(valorHora := v)
    case HorasPorDia => s.(horasPorDia := v)
    case DiasPorSemana => s.(diasPorSemana := v)
    case SemanasPorMes => s.(semanasPorMes := v)
    case EntradaReais => s.(entradaReais := v)
    case EntradaPercentual => s.(entradaPercentual := v)
    case DataPrimeiraParcela => s.(dataPrimeiraParcela := v)
    case ParcelasSemanais => s.(parcelasSemanais := v)
  }

  /** `handleScenarioChange`: the named field of the card with the id takes the
      value; ids, the other fields and the other cards are untouched. */
  function HandleScenarioChange(scenarios: seq<HourlyScenarioData>, id: int, f: HourlyField, v: string)
    : (r: seq<HourlyScenarioData>)
    ensures |r| == |scenarios|
    ensures forall i :: 0 <= i < |r| ==> r[i].id == scenarios[i].id
    ensures forall i :: 0 <= i < |r| ==>
      GetField(r[i], f) == (if scenarios[i].id == id then v else GetField(scenarios[i], f))
    ensures forall i, g :: 0 <= i < |r| && g != f ==> GetField(r[i], g) == GetField(scenarios[i], g)
  {
    seq(|scenarios|, i requires 0 <= i < |scenarios| =>
      if scenarios[i].id == id then SetField(scenarios[i], f, v) else scenarios[i])
  }

  /** An edit keeps card ids 1..n. */
  lemma ScenarioChangeKeepsIds(scenarios: seq<HourlyScenarioData>, id: int, f: HourlyField, v: string)
    requires IdsSequential(scenarios, HourlyScenarioId)
    ensures IdsSequential(HandleScenarioChange(scenarios, id, f, v), HourlyScenarioId)
  {
    var r := HandleScenarioChange(scenarios, id, f, v);
    forall i | 0 <= i < |r|
      ensures HourlyScenarioId(r[i]) == i + 1
    {
      assert r[i].id == scenarios[i].id;
    }
  }

  /** `handleCalculate`: `scenarios.map(calculateHourlyScenario)`, one result per card
      in the cards' order, each carrying its card's id and named after it. */
  function HandleCalculate(st: HourlyPageState, ext: External): (r: HourlyPageState)
    ensures r.numScenarios == st.numScenarios && r.scenarios == st.scenarios
    ensures |r.results| == |st.scenarios|
    ensures forall i :: 0 <= i < |r.results| ==>
      r.results[i].id == st.scenarios[i].id && r.results[i].nome == ScenarioName(st.scenarios[i].id)
    ensures forall i :: 0 <= i < |r.results| ==>
      r.results[i] == HourlyResult(st.scenarios[i].id, ParseInputs(st.scenarios[i], ext))
  {
    st.(results := seq(|st.scenarios|, i requires 0 <= i < |st.scenarios| =>
      HourlyResult(st.scenarios[i].id, ParseInputs(st.scenarios[i], ext))))
  }

  /** Every result the button produces keeps the engine's promises: the down payment
      and the financed amount split the contract, the instalments pay off what is
      financed, and the dates form a weekly schedule from the typed date. */
  lemma CalculatedResultsKeepPromises(st: HourlyPageState, ext: External)
    ensures var r := HandleCalculate(st, ext);
      forall i :: 0 <= i < |r.results| ==>
        && SplitsContract(r.results[i]) && InstalmentsCover(r.results[i]) && WeeklyDates(r.results[i])
  {
    var r := HandleCalculate(st, ext);
    forall i | 0 <= i < |r.results|
      ensures SplitsContract(r.results[i]) && InstalmentsCover(r.results[i]) && WeeklyDates(r.results[i])
    {
      var p := ParseInputs(st.scenarios[i], ext);
      DownPaymentSplitsContract(st.scenarios[i].id, p);
      InstalmentsCoverFinanced(st.scenarios[i].id, p);
      ScheduleIsWeekly(st.scenarios[i].id, p);
    }
  }

  /** The page opens with one default card numbered 1, a count of 1 and no results. */
  lemma InitialHourlyStateConsistent()
    ensures IdsSequential(InitialHourlyState().scenarios, HourlyScenarioId)
    ensures InitialHourlyState().numScenarios == |InitialHourlyState().scenarios| == 1
    ensures InitialHourlyState().results == []
  {
  }
}
