/** The records of the flat-project and hourly calculators. Inputs hold the raw
    text of their form fields; a date in a result is a day number, `None` where
    the source keeps an empty string. */
module Types {
  import opened Wrappers

  /** One flat-project scenario as typed into its card. */
  datatype ScenarioData = ScenarioData(
    id: int,
    totalProjeto: string,
    entradaReais: string,
    entradaPercentual: string,
    parcelas: string,
    dataPrimeiraParcela: string)

  /** A partner sharing the project's revenue. */
  datatype Participant = Participant(id: int, name: string, percentage: real)

  /** One hourly scenario as typed into its card. */
  datatype HourlyScenarioData = HourlyScenarioData(
    id: int,
    valorHora: string,
    horasPorDia: string,
    diasPorSemana: string,
    semanasPorMes: string,
    entradaReais: string,
    entradaPercentual: string,
    dataPrimeiraParcela: string,
    parcelasSemanais: string)

  /** What the hourly calculator reports for one scenario. */
  datatype HourlyScenarioResult = HourlyScenarioResult(
    id: int,
    nome: string,
    // overview
    horasNoMes: real,
    valorPorDia: real,
    valorSemanal: real,
    valorMensalTotal: real,
    // payment
    entradaReais: real,
    entradaPercentual: real,
    valorFinanciado: real,
    totalContrato: real,
    // instalments
    numeroParcelas: int,
    valorParcelaSemanal: real,
    valorMensalEstimado: real,
    valorDiarioMedio: real,
    // schedule, as day numbers
    dataPrimeiraParcela: Option<int>,
    dataUltimaParcela: Option<int>,
    datasSemanais: seq<int>)
}
