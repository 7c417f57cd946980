/** The records of the AI-project calculator: its inputs, the setup breakdown a
    detail view reconciles against, and the result. Every amount is an exact
    `real` standing in for a JavaScript number. */
module AiTypes {

  datatype ComplexityLevel = Low | Medium | High

  datatype AiModel = Gpt4o | Claude35 | GeminiPro

  datatype HostingType = SelfHosted | Cloud

  datatype RoiLevel = LowRoi | MediumRoi | CriticalRoi

  datatype AiProjectInputs = AiProjectInputs(
    // scope of the n8n work
    workflowsCount: real,
    integrationsCount: real,
    complexity: ComplexityLevel,
    // AI layer
    model: AiModel,
    hasRag: bool,
    hasMemory: bool,
    // infrastructure and recurring use
    hosting: HostingType,
    estimatedTokens: real,
    // official WhatsApp channel (Meta)
    hasWhatsapp: bool,
    whatsappServiceConversations: real,
    whatsappMarketingConversations: real,
    // multipliers
    roi: RoiLevel,
    isUrgent: bool,
    hasIpTransfer: bool,
    // money, in R$
    hourlyRate: real,
    integrationCost: real,
    supportFee: real,
    monthlySavings: real,
    // margins, in percent
    marginSetup: real,
    marginRecurring: real)

  datatype SetupBreakdown = SetupBreakdown(
    hoursValue: real,
    integrationsValue: real,
    complexityAddon: real,
    urgencyAddon: real,
    aiTechAddon: real,
    ipTransferAddon: real,
    marginAddon: real)

  datatype AiProjectResult = AiProjectResult(
    estimatedHours: int,
    baseSetupValue: real,
    complexityMarkup: real,
    urgencyMarkup: real,
    finalSetupValue: real,
    breakdown: SetupBreakdown,
    infraCost: real,
    tokenCost: real,
    whatsappCost: real,
    baseMonthlyCost: real,
    finalMonthlyValue: real,
    paybackMonths: real,
    projectedAnnualProfit: real)
}
