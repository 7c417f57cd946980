/** The AI-project price engine: a one-off setup price built from labour hours,
    integration cost, percentage markups and a margin; a monthly price built from
    hosting, token use, the WhatsApp channel and a support fee with its own
    margin; and the client's payback period. */
module AiCalculations {
  import opened AiTypes

  const HoursPerWorkflowBase: real := 8.0

  /** Setup markup for the project's complexity, as a fraction of the base value. */
  function ComplexityMultiplier(c: ComplexityLevel): real {
    match c
    case Low => 0.0
    case Medium => 0.30
    case High => 0.60
  }

  /** How many times the base hours a workflow of this complexity takes. */
  function BaseHoursMultiplier(c: ComplexityLevel): real {
    match c
    case Low => 1.0
    case Medium => 1.5
    case High => 2.5
  }

  /** Monthly hosting cost in R$. */
  function HostingCost(h: HostingType): real {
    match h
    case SelfHosted => 50.0
    case Cloud => 150.0
  }

  /** Cost in R$ of 1000 tokens: a USD price converted at 6.0. */
  function TokenCostPer1k(m: AiModel): real {
    match m
    case Gpt4o => 0.015 * 6.0
    case Claude35 => 0.015 * 6.0
    case GeminiPro => 0.005 * 6.0
  }

  /** Meta's price in R$ of one WhatsApp service and one marketing conversation. */
  const MetaServiceRate: real := 0.03 * 6.00
  const MetaMarketingRate: real := 0.06 * 6.00

  /** The payback reported when the client gains nothing each month. */
  const PaybackSentinel: real := 999.0

  /** `Math.ceil`. */
  function Ceil(x: real): (n: int)
    ensures x <= n as real < x + 1.0
  {
    -((-x).Floor)
  }

  function UrgencyPct(inputs: AiProjectInputs): real {
    if inputs.isUrgent then 0.25 else 0.0
  }

  function RagPct(inputs: AiProjectInputs): real {
    if inputs.hasRag then 0.15 else 0.0
  }

  function MemoryPct(inputs: AiProjectInputs): real {
    if inputs.hasMemory then 0.10 else 0.0
  }

  function IpPct(inputs: AiProjectInputs): real {
    if inputs.hasIpTransfer then 0.30 else 0.0
  }

  /** The sum of the markup fractions the inputs switch on. */
  function MarkupSum(inputs: AiProjectInputs): real {
    ComplexityMultiplier(inputs.complexity) + UrgencyPct(inputs) + RagPct(inputs)
      + MemoryPct(inputs) + IpPct(inputs)
  }

  /** Labour hours before rounding. */
  function RawHours(inputs: AiProjectInputs): real {
    inputs.workflowsCount * (HoursPerWorkflowBase * BaseHoursMultiplier(inputs.complexity))
  }

  /** Labour is priced on the unrounded hours, the reported hours are those hours
      rounded up, and labour plus integrations is the base setup value. */
  ghost predicate BaseReconciles(inputs: AiProjectInputs, r: AiProjectResult) {
    var b := r.breakdown;
    && r.estimatedHours as real - 1.0 < RawHours(inputs) <= r.estimatedHours as real
    && b.hoursValue == RawHours(inputs) * inputs.hourlyRate
    && b.integrationsValue == inputs.integrationCost
    && r.baseSetupValue == b.hoursValue + b.integrationsValue
  }

  /** The subtotal shown before the margin is the base times one plus the enabled
      markups; the four addons are exactly what the markups add to the base; the
      reported complexity markup gathers every addon but urgency, which is reported
      on its own. */
  ghost predicate MarkupsReconcile(inputs: AiProjectInputs, r: AiProjectResult) {
    var b := r.breakdown;
    var subtotal := r.finalSetupValue - b.marginAddon;
    && subtotal == r.baseSetupValue * TotalMarkupMultiplier(inputs)
    && b.complexityAddon + b.urgencyAddon + b.aiTechAddon + b.ipTransferAddon
       == subtotal - r.baseSetupValue
    && r.complexityMarkup == b.complexityAddon + b.aiTechAddon + b.ipTransferAddon
    && r.urgencyMarkup == b.urgencyAddon
  }

  /** The setup margin is the agreed percentage of the subtotal it is added to. */
  ghost predicate MarginReconciles(inputs: AiProjectInputs, r: AiProjectResult) {
    var b := r.breakdown;
    b.marginAddon == (r.finalSetupValue - b.marginAddon) * (inputs.marginSetup / 100.0)
  }

  /** The monthly figures reconcile: hosting by tier, tokens per thousand at the
      model's rate, WhatsApp only when enabled, and the base cost less hosting and
      tokens is the support fee plus the WhatsApp cost; the final value is the base
      with the recurring margin added. */
  ghost predicate RecurringReconciles(inputs: AiProjectInputs, r: AiProjectResult) {
    && r.infraCost == HostingCost(inputs.hosting)
    && r.tokenCost == inputs.estimatedTokens / 1000.0 * TokenCostPer1k(inputs.model)
    && r.whatsappCost == (if inputs.hasWhatsapp
                          then inputs.whatsappServiceConversations * MetaServiceRate
                               + inputs.whatsappMarketingConversations * MetaMarketingRate
                          else 0.0)
    && r.baseMonthlyCost - r.infraCost - r.tokenCost == inputs.supportFee + r.whatsappCost
    && r.finalMonthlyValue - r.baseMonthlyCost == r.baseMonthlyCost * (inputs.marginRecurring / 100.0)
  }

  /** The payback rule: with a positive monthly gain for the client, the payback
      period recovers the setup price exactly; otherwise the sentinel is reported
      and nothing is divided. The annual projection is twelve months of gain,
      a loss when the gain is not positive. */
  ghost predicate RoiRule(inputs: AiProjectInputs, r: AiProjectResult) {
    var net := inputs.monthlySavings - r.finalMonthlyValue;
    && (net > 0.0 ==> r.paybackMonths * net == r.finalSetupValue)
    && (net <= 0.0 ==> r.paybackMonths == PaybackSentinel && r.projectedAnnualProfit <= 0.0)
    && r.projectedAnnualProfit == net * 12.0
  }

  lemma DivisionRecovers(x: real, d: real)
    requires d != 0.0
    ensures (x / d) * d == x
  {
  }

  /** The four addons, each a fraction of the base, add up to what the combined
      multiplier adds to the base. */
  lemma AddonsDistribute(base: real, c: real, u: real, rag: real, mem: real, ip: real, multiplier: real)
    requires multiplier == 1.0 + (c + u + rag + mem + ip)
    ensures base * c + base * u + base * (rag + mem) + base * ip == base * multiplier - base
  {
  }

  /** A margin added to a subtotal is that fraction of what is left once it is taken off again. */
  lemma MarginOfSubtotal(subtotal: real, fraction: real)
    ensures var margin := subtotal * fraction;
            (subtotal + margin) - margin == subtotal
            && margin == ((subtotal + margin) - margin) * fraction
  {
  }

  /** Labour in R$: the unrounded hours at the hourly rate. */
  function LaborCost(inputs: AiProjectInputs): real {
    RawHours(inputs) * inputs.hourlyRate
  }

  /** Labour plus the integration cost. */
  function BaseSetupValue(inputs: AiProjectInputs): real {
    LaborCost(inputs) + inputs.integrationCost
  }

  /** One plus every enabled markup fraction. */
  function TotalMarkupMultiplier(inputs: AiProjectInputs): real {
    1.0 + MarkupSum(inputs)
  }

  /** The setup subtotal before the margin. */
  function PreMarginSetup(inputs: AiProjectInputs): real {
    BaseSetupValue(inputs) * TotalMarkupMultiplier(inputs)
  }

  /** The setup margin: its percentage of the subtotal. */
  function SetupMargin(inputs: AiProjectInputs): real {
    PreMarginSetup(inputs) * (inputs.marginSetup / 100.0)
  }

  function FinalSetupValue(inputs: AiProjectInputs): real {
    PreMarginSetup(inputs) + SetupMargin(inputs)
  }

  /** Tokens per thousand at the model's rate. */
  function TokenCost(inputs: AiProjectInputs): real {
    (inputs.estimatedTokens / 1000.0) * TokenCostPer1k(inputs.model)
  }

  /** Meta's charge for the conversations, when the channel is on. */
  function WhatsappCost(inputs: AiProjectInputs): real {
    if inputs.hasWhatsapp then
      0.0 + inputs.whatsappServiceConversations * MetaServiceRate
          + inputs.whatsappMarketingConversations * MetaMarketingRate
    else 0.0
  }

  function BaseMonthlyCost(inputs: AiProjectInputs): real {
    HostingCost(inputs.hosting) + TokenCost(inputs) + WhatsappCost(inputs) + inputs.supportFee
  }

  /** The monthly cost with the recurring margin on top. */
  function FinalMonthlyValue(inputs: AiProjectInputs): real {
    BaseMonthlyCost(inputs) * (1.0 + (inputs.marginRecurring / 100.0))
  }

  /** What the client gains each month once the monthly price is paid. */
  function NetMonthlyBenefit(inputs: AiProjectInputs): real {
    inputs.monthlySavings - FinalMonthlyValue(inputs)
  }

  function PaybackMonths(inputs: AiProjectInputs): real {
    var net := NetMonthlyBenefit(inputs);
    if net > 0.0 then FinalSetupValue(inputs) / net else PaybackSentinel
  }

  /** `calculateAiProject`: the result record assembled from the steps above, each
      named after the variable the source computes it into. The reported hours
      cover the raw hours, the reported figures agree with the breakdown, and the
      payback falls back to the sentinel whenever the client gains nothing a month. */
  function CalculateAiProject(inputs: AiProjectInputs): (r: AiProjectResult)
    ensures r.estimatedHours as real >= RawHours(inputs)
    ensures r.baseSetupValue == r.breakdown.hoursValue + r.breakdown.integrationsValue
    ensures r.complexityMarkup == r.breakdown.complexityAddon + r.breakdown.aiTechAddon + r.breakdown.ipTransferAddon
    ensures r.urgencyMarkup == r.breakdown.urgencyAddon
    ensures inputs.monthlySavings <= r.finalMonthlyValue ==> r.paybackMonths == PaybackSentinel
    ensures r.projectedAnnualProfit == (inputs.monthlySavings - r.finalMonthlyValue) * 12.0
  {
    var base := BaseSetupValue(inputs);
    var complexityAddon := base * ComplexityMultiplier(inputs.complexity);
    var urgencyAddon := base * UrgencyPct(inputs);
    var aiTechAddon := base * (RagPct(inputs) + MemoryPct(inputs));
    var ipTransferAddon := base * IpPct(inputs);
    AiProjectResult(
      Ceil(RawHours(inputs)),
      base,
      complexityAddon + aiTechAddon + ipTransferAddon,
      urgencyAddon,
      FinalSetupValue(inputs),
      SetupBreakdown(LaborCost(inputs), inputs.integrationCost, complexityAddon, urgencyAddon,
                     aiTechAddon, ipTransferAddon, SetupMargin(inputs)),
      HostingCost(inputs.hosting),
      TokenCost(inputs),
      WhatsappCost(inputs),
      BaseMonthlyCost(inputs),
      FinalMonthlyValue(inputs),
      PaybackMonths(inputs),
      NetMonthlyBenefit(inputs) * 12.0)
  }

  /** The hours and the base value of `calculateAiProject` reconcile with its breakdown. */
  lemma BaseOfCalculation(inputs: AiProjectInputs)
    ensures BaseReconciles(inputs, CalculateAiProject(inputs))
  {
  }

  /** The monthly figures of `calculateAiProject` reconcile. */
  lemma RecurringOfCalculation(inputs: AiProjectInputs)
    ensures RecurringReconciles(inputs, CalculateAiProject(inputs))
  {
  }

  /** `calculateAiProject` follows the payback rule. */
  lemma RoiOfCalculation(inputs: AiProjectInputs)
    ensures RoiRule(inputs, CalculateAiProject(inputs))
  {
    var r := CalculateAiProject(inputs);
    var net := inputs.monthlySavings - r.finalMonthlyValue;
    if net > 0.0 {
      DivisionRecovers(r.finalSetupValue, net);
    }
  }

  /** The markups of `calculateAiProject` reconcile with its breakdown. */
  lemma MarkupsOfCalculation(inputs: AiProjectInputs)
    ensures MarkupsReconcile(inputs, CalculateAiProject(inputs))
  {
    SubtotalIsMarkedUpBase(inputs);
    AddonsOfCalculation(inputs);
  }

  lemma SubtotalIsMarkedUpBase(inputs: AiProjectInputs)
    ensures var r := CalculateAiProject(inputs);
            r.finalSetupValue - r.breakdown.marginAddon == r.baseSetupValue * TotalMarkupMultiplier(inputs)
  {
    SubtotalOfCalculation(inputs);
  }

  lemma AddonsOfCalculation(inputs: AiProjectInputs)
    ensures var r := CalculateAiProject(inputs);
            var b := r.breakdown;
            b.complexityAddon + b.urgencyAddon + b.aiTechAddon + b.ipTransferAddon
            == (r.finalSetupValue - b.marginAddon) - r.baseSetupValue
  {
    AddonsOfStages(inputs);
    SubtotalOfCalculation(inputs);
  }

  /** The four add-ons of the stages sum to the subtotal less the base. */
  lemma AddonsOfStages(inputs: AiProjectInputs)
    ensures var base := BaseSetupValue(inputs);
            base * ComplexityMultiplier(inputs.complexity) + base * UrgencyPct(inputs)
            + base * (RagPct(inputs) + MemoryPct(inputs)) + base * IpPct(inputs)
            == PreMarginSetup(inputs) - base
  {
    AddonsDistribute(BaseSetupValue(inputs), ComplexityMultiplier(inputs.complexity), UrgencyPct(inputs),
                     RagPct(inputs), MemoryPct(inputs), IpPct(inputs), TotalMarkupMultiplier(inputs));
  }


  /** The setup margin of `calculateAiProject` is its percentage of the subtotal. */
  lemma MarginOfCalculation(inputs: AiProjectInputs)
    ensures MarginReconciles(inputs, CalculateAiProject(inputs))
  {
    MarginOfSubtotal(PreMarginSetup(inputs), inputs.marginSetup / 100.0);
  }

  /** The line a detail view labels as the support fee, the base monthly cost less
      hosting and tokens, is the support fee exactly when the WhatsApp cost is zero,
      which it is whenever the channel is off. */
  lemma SupportLineIsSupportFee(inputs: AiProjectInputs)
    ensures var r := CalculateAiProject(inputs);
            && (r.baseMonthlyCost - r.infraCost - r.tokenCost == inputs.supportFee <==> r.whatsappCost == 0.0)
            && (!inputs.hasWhatsapp ==> r.whatsappCost == 0.0)
  {
  }

  /** Switching urgency on raises the pre-margin subtotal by a quarter of the base
      value and leaves the base value and the monthly side unchanged. */
  lemma UrgencyAddsQuarterOfBase(inputs: AiProjectInputs)
    ensures var off := CalculateAiProject(inputs.(isUrgent := false));
            var on := CalculateAiProject(inputs.(isUrgent := true));
            && on.baseSetupValue == off.baseSetupValue
            && (on.finalSetupValue - on.breakdown.marginAddon)
               - (off.finalSetupValue - off.breakdown.marginAddon) == 0.25 * off.baseSetupValue
            && on.urgencyMarkup == 0.25 * off.baseSetupValue && off.urgencyMarkup == 0.0
            && on.finalMonthlyValue == off.finalMonthlyValue
  {
    UrgencyKeepsBase(inputs);
    UrgencyMarkup(inputs);
    UrgencyRaisesSubtotal(inputs);
  }

  lemma UrgencyKeepsBase(inputs: AiProjectInputs)
    ensures var off := CalculateAiProject(inputs.(isUrgent := false));
            var on := CalculateAiProject(inputs.(isUrgent := true));
            on.baseSetupValue == off.baseSetupValue && on.finalMonthlyValue == off.finalMonthlyValue
  {
    assert BaseSetupValue(inputs.(isUrgent := true)) == BaseSetupValue(inputs.(isUrgent := false));
  }

  lemma UrgencyMarkup(inputs: AiProjectInputs)
    ensures var off := CalculateAiProject(inputs.(isUrgent := false));
            var on := CalculateAiProject(inputs.(isUrgent := true));
            on.urgencyMarkup == 0.25 * off.baseSetupValue && off.urgencyMarkup == 0.0
  {
    var off := inputs.(isUrgent := false);
    var on := inputs.(isUrgent := true);
    assert BaseSetupValue(on) == BaseSetupValue(off);
    Scale(BaseSetupValue(on), UrgencyPct(on), 0.25);
    Scale(BaseSetupValue(off), UrgencyPct(off), 0.0);
  }

  lemma UrgencyRaisesSubtotal(inputs: AiProjectInputs)
    ensures var off := CalculateAiProject(inputs.(isUrgent := false));
            var on := CalculateAiProject(inputs.(isUrgent := true));
            (on.finalSetupValue - on.breakdown.marginAddon)
            - (off.finalSetupValue - off.breakdown.marginAddon) == 0.25 * off.baseSetupValue
  {
    var off := inputs.(isUrgent := false);
    var on := inputs.(isUrgent := true);
    PreMarginShift(inputs);
    SubtotalOfCalculation(on);
    SubtotalOfCalculation(off);
    SubtotalsDiffer(CalculateAiProject(on), CalculateAiProject(off),
                    PreMarginSetup(on), PreMarginSetup(off), BaseSetupValue(off));
  }

  lemma PreMarginShift(inputs: AiProjectInputs)
    ensures PreMarginSetup(inputs.(isUrgent := true)) - PreMarginSetup(inputs.(isUrgent := false))
            == 0.25 * BaseSetupValue(inputs.(isUrgent := false))
  {
    var off := inputs.(isUrgent := false);
    var on := inputs.(isUrgent := true);
    Shift(BaseSetupValue(on), BaseSetupValue(off), TotalMarkupMultiplier(on), TotalMarkupMultiplier(off), 0.25);
  }

  lemma SubtotalsDiffer(on: AiProjectResult, off: AiProjectResult, subOn: real, subOff: real, base: real)
    requires on.finalSetupValue - on.breakdown.marginAddon == subOn
    requires off.finalSetupValue - off.breakdown.marginAddon == subOff
    requires off.baseSetupValue == base && subOn - subOff == 0.25 * base
    ensures (on.finalSetupValue - on.breakdown.marginAddon)
            - (off.finalSetupValue - off.breakdown.marginAddon) == 0.25 * off.baseSetupValue
  {
  }

  lemma Shift(xOn: real, xOff: real, yOn: real, yOff: real, z: real)
    requires xOn == xOff && yOn == yOff + z
    ensures xOn * yOn - xOff * yOff == z * xOff
  {
    Distribute(xOff, yOff, z, yOn);
  }

  /** The setup price less its margin is the subtotal before the margin. */
  lemma SubtotalOfCalculation(inputs: AiProjectInputs)
    ensures var r := CalculateAiProject(inputs);
            r.finalSetupValue - r.breakdown.marginAddon == PreMarginSetup(inputs)
  {
  }

  lemma Scale(x: real, y: real, k: real)
    requires y == k
    ensures x * y == k * x
  {
  }

  lemma Distribute(x: real, y: real, z: real, w: real)
    requires w == y + z
    ensures x * w - x * y == z * x
  {
  }
}
