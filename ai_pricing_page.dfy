/** The AI-project page: the input record behind the form, the handlers that edit
    one field of it (amounts arriving as pt-BR currency text), and the effect that
    prices the project again after every edit. */
module AiPricingPage {
  import opened Wrappers
  import opened JsText
  import opened AiTypes
  import opened AiCalculations

  // ---------------------------------------------------------------------------
  // Page state

  /** The record the page starts from: 5 medium workflows with 3 integrations on
      GPT-4o in the cloud, 1M tokens a month, R$ 200 an hour, a fixed R$ 500 of
      integration cost, R$ 2,000 of support, 40 % setup and 50 % recurring margin,
      every option off. The source leaves the WhatsApp fields and the monthly
      savings out of this record; here they are off and 0. */
  function DefaultInputs(): AiProjectInputs {
    AiProjectInputs(
      5.0, 3.0, Medium,
      Gpt4o, false, false,
      Cloud, 1000000.0,
      false, 0.0, 0.0,
      MediumRoi, false, false,
      200.0, 500.0, 2000.0, 0.0,
      40.0, 50.0)
  }

  /** The inputs and the result shown, `None` before the first effect has run. */
  datatype AiPageState = AiPageState(inputs: AiProjectInputs, result: Option<AiProjectResult>)

  function InitialAiState(): AiPageState {
    AiPageState(DefaultInputs(), None)
  }

  /** Once the effect has run on the opening page, it shows the price of the
      defaults: R$ 22,750 of setup and R$ 3,360 a month. */
  lemma InitialPageShowsDefaultsPrice()
    ensures var st := RecomputeEffect(InitialAiState());
      && st.inputs == DefaultInputs() && ShowsCurrentResult(st)
      && st.result.Some? && st.result.value.finalSetupValue == 22750.0
      && st.result.value.finalMonthlyValue == 3360.0
  {
    DefaultsPrice();
  }

  /** The page shows the price of its current inputs. */
  predicate ShowsCurrentResult(st: AiPageState) {
    st.result == Some(CalculateAiProject(st.inputs))
  }

  /** The effect keyed on `inputs`: the result becomes the price of the inputs. */
  function RecomputeEffect(st: AiPageState): (r: AiPageState)
    ensures r.inputs == st.inputs && ShowsCurrentResult(r)
  {
    st.(result := Some(CalculateAiProject(st.inputs)))
  }

  // ---------------------------------------------------------------------------
  // One field of the inputs

  datatype AiField =
    | WorkflowsCount | IntegrationsCount | Complexity
    | Model | HasRag | HasMemory
    | Hosting | EstimatedTokens
    | HasWhatsapp | WhatsappServiceConversations | WhatsappMarketingConversations
    | Roi | IsUrgent | HasIpTransfer
    | HourlyRate | IntegrationCost | SupportFee | MonthlySavings
    | MarginSetup | MarginRecurring

  /** A value a form control hands to `handleInputChange`. */
  datatype FieldValue =
    | Number(n: real)
    | Flag(b: bool)
    | LevelChoice(level: ComplexityLevel)
    | ModelChoice(model: AiModel)
    | HostingChoice(hosting: HostingType)
    | RoiChoice(roi: RoiLevel)

  /** The field takes values of this kind. */
  predicate Fits(f: AiField, v: FieldValue) {
    match f
    case Complexity => v.LevelChoice?
    case Model => v.ModelChoice?
    case Hosting => v.HostingChoice?
    case Roi => v.RoiChoice?
    case HasRag | HasMemory | HasWhatsapp | IsUrgent | HasIpTransfer => v.Flag?
    case _ => v.Number?
  }

  function GetField(i: AiProjectInputs, f: AiField): (v: FieldValue)
    ensures Fits(f, v)
  {
    match f
    case WorkflowsCount => Number(i.workflowsCount)
    case IntegrationsCount => Number(i.integrationsCount)
    case Complexity => LevelChoice(i.complexity)
    case Model => ModelChoice(i.model)
    case HasRag => Flag(i.hasRag)
    case HasMemory => Flag(i.hasMemory)
    case Hosting => HostingChoice(i.hosting)
    case EstimatedTokens => Number(i.estimatedTokens)
    case HasWhatsapp => Flag(i.hasWhatsapp)
    case WhatsappServiceConversations => Number(i.whatsappServiceConversations)
    case WhatsappMarketingConversations => Number(i.whatsappMarketingConversations)
    case Roi => RoiChoice(i.roi)
    case IsUrgent => Flag(i.isUrgent)
    case HasIpTransfer => Flag(i.hasIpTransfer)
    case HourlyRate => Number(i.hourlyRate)
    case IntegrationCost => Number(i.integrationCost)
    case SupportFee => Number(i.supportFee)
    case MonthlySavings => Number(i.monthlySavings)
    case MarginSetup => Number(i.marginSetup)
    case MarginRecurring => Number(i.marginRecurring)
  }

  /** `{ ...prev, [field]: value }`: the field reads back the value; that every other
      field is unchanged is `SetFieldKeepsOthers`. */
  function SetField(i: AiProjectInputs, f: AiField, v: FieldValue): (r: AiProjectInputs)
    requires Fits(f, v)
    ensures GetField(r, f) == v
  {
    match f
    case WorkflowsCount => i.(workflowsCount := v.n)
    case IntegrationsCount => i.(integrationsCount := v.n)
    case Complexity => i.(complexity := v.level)
    case Model => i.(model := v.model)
    case HasRag => i.(hasRag := v.b)
    case HasMemory => i.(hasMemory := v.b)
    case Hosting => i.(hosting := v.hosting)
    case EstimatedTokens => i.(estimatedTokens := v.n)
    case HasWhatsapp => i.(hasWhatsapp := v.b)
    case WhatsappServiceConversations => i.(whatsappServiceConversations := v.n)
    case WhatsappMarketingConversations => i.(whatsappMarketingConversations := v.n)
    case Roi => i.(roi := v.roi)
    case IsUrgent => i.(isUrgent := v.b)
    case HasIpTransfer => i.(hasIpTransfer := v.b)
    case HourlyRate => i.(hourlyRate := v.n)
    case IntegrationCost => i.(integrationCost := v.n)
    case SupportFee => i.(supportFee := v.n)
    case MonthlySavings => i.(monthlySavings := v.n)
    case MarginSetup => i.(marginSetup := v.n)
    case MarginRecurring => i.(marginRecurring := v.n)
  }

  /** Setting one field leaves another as it was. */
  lemma SetFieldKeepsOther(i: AiProjectInputs, f: AiField, v: FieldValue, g: AiField)
    requires Fits(f, v) && g != f
    ensures GetField(SetField(i, f, v), g) == GetField(i, g)
  {
    match f
    case WorkflowsCount =>
    case IntegrationsCount =>
    case Complexity =>
    case Model =>
    case HasRag =>
    case HasMemory =>
    case Hosting =>
    case EstimatedTokens =>
    case HasWhatsapp =>
    case WhatsappServiceConversations =>
    case WhatsappMarketingConversations =>
    case Roi =>
    case IsUrgent =>
    case HasIpTransfer =>
    case HourlyRate =>
    case IntegrationCost =>
    case SupportFee =>
    case MonthlySavings =>
    case MarginSetup =>
    case MarginRecurring =>
  }

  /** Setting one field leaves every other as it was. */
  lemma SetFieldKeepsOthers(i: AiProjectInputs, f: AiField, v: FieldValue)
    requires Fits(f, v)
    ensures forall g :: g != f ==> GetField(SetField(i, f, v), g) == GetField(i, g)
  {
    forall g | g != f
      ensures GetField(SetField(i, f, v), g) == GetField(i, g)
    {
      SetFieldKeepsOther(i, f, v, g);
    }
  }

  /** A record is determined by its fields. */
  lemma SameFieldsSameInputs(a: AiProjectInputs, b: AiProjectInputs)
    requires forall f :: GetField(a, f) == GetField(b, f)
    ensures a == b
  {
    RebuiltFromFields(a);
    RebuiltFromFields(b);
  }

  // Total readers of a field value, with a default for a value of another kind.
  function NumberOf(v: FieldValue): real { if v.Number? then v.n else 0.0 }
  function FlagOf(v: FieldValue): bool { v.Flag? && v.b }
  function LevelOf(v: FieldValue): ComplexityLevel { if v.LevelChoice? then v.level else Low }
  function ModelOf(v: FieldValue): AiModel { if v.ModelChoice? then v.model else Gpt4o }
  function HostingOf(v: FieldValue): HostingType { if v.HostingChoice? then v.hosting else Cloud }
  function RoiOf(v: FieldValue): RoiLevel { if v.RoiChoice? then v.roi else LowRoi }

  /** The record whose every field is read from `i`. */
  function FromFields(i: AiProjectInputs): AiProjectInputs {
    AiProjectInputs(
      NumberOf(GetField(i, WorkflowsCount)),
      NumberOf(GetField(i, IntegrationsCount)),
      LevelOf(GetField(i, Complexity)),
      ModelOf(GetField(i, Model)),
      FlagOf(GetField(i, HasRag)),
      FlagOf(GetField(i, HasMemory)),
      HostingOf(GetField(i, Hosting)),
      NumberOf(GetField(i, EstimatedTokens)),
      FlagOf(GetField(i, HasWhatsapp)),
      NumberOf(GetField(i, WhatsappServiceConversations)),
      NumberOf(GetField(i, WhatsappMarketingConversations)),
      RoiOf(GetField(i, Roi)),
      FlagOf(GetField(i, IsUrgent)),
      FlagOf(GetField(i, HasIpTransfer)),
      NumberOf(GetField(i, HourlyRate)),
      NumberOf(GetField(i, IntegrationCost)),
      NumberOf(GetField(i, SupportFee)),
      NumberOf(GetField(i, MonthlySavings)),
      NumberOf(GetField(i, MarginSetup)),
      NumberOf(GetField(i, MarginRecurring)))
  }

  lemma RebuiltFromFields(i: AiProjectInputs)
    ensures FromFields(i) == i
  {
  }

  /** Writing a field's current value back leaves the inputs as they were. */
  lemma SetFieldToItsValue(i: AiProjectInputs, f: AiField)
    ensures SetField(i, f, GetField(i, f)) == i
  {
    SetFieldKeepsOthers(i, f, GetField(i, f));
    SameFieldsSameInputs(SetField(i, f, GetField(i, f)), i);
  }

  /** `handleInputChange` followed by the effect it triggers: only the named field
      changes, and the page shows the price of the new inputs. */
  function HandleInputChange(st: AiPageState, f: AiField, v: FieldValue): (r: AiPageState)
    requires Fits(f, v)
    ensures GetField(r.inputs, f) == v
    ensures forall g :: g != f ==> GetField(r.inputs, g) == GetField(st.inputs, g)
    ensures ShowsCurrentResult(r)
  {
    SetFieldKeepsOthers(st.inputs, f, v);
    RecomputeEffect(st.(inputs := SetField(st.inputs, f, v)))
  }

  // ---------------------------------------------------------------------------
  // Currency text

  /** The characters the pattern `[R$\s.]` matches. */
  predicate IsCurrencyNoise(c: char) {
    c == 'R' || c == '$' || IsJsSpace(c) || c == '.'
  }

  /** `replace(/[R$\s.]/g, '')`: every matching character goes, the others stay in
      order. */
  function StripCurrencyNoise(s: string): (r: string)
    ensures |r| <= |s|
    ensures forall i :: 0 <= i < |r| ==> !IsCurrencyNoise(r[i])
  {
    if s == [] then []
    else if IsCurrencyNoise(s[0]) then StripCurrencyNoise(s[1..])
    else [s[0]] + StripCurrencyNoise(s[1..])
  }

  lemma {:induction false} StripAppend(a: string, b: string)
    ensures StripCurrencyNoise(a + b) == StripCurrencyNoise(a) + StripCurrencyNoise(b)
  {
    if a == [] {
      assert a + b == b;
    } else {
      assert (a + b)[0] == a[0];
      assert (a + b)[1..] == a[1..] + b;
      StripAppend(a[1..], b);
    }
  }

  /** Text with nothing to strip is left as it is. */
  lemma {:induction false} StripClean(s: string)
    requires forall i :: 0 <= i < |s| ==> !IsCurrencyNoise(s[i])
    ensures StripCurrencyNoise(s) == s
  {
    if s != [] {
      StripClean(s[1..]);
    }
  }

  /** Text made only of stripped characters vanishes. */
  lemma {:induction false} StripNoise(s: string)
    requires forall i :: 0 <= i < |s| ==> IsCurrencyNoise(s[i])
    ensures StripCurrencyNoise(s) == []
  {
    if s != [] {
      StripNoise(s[1..]);
    }
  }

  /** The text `handleCurrencyChange` hands to `parseFloat`: the noise stripped and
      the first comma made a decimal point. No `R`, `$` or white space is left, the
      only `.` stands where the first comma was, and later commas stay. */
  function CleanCurrencyText(s: string): (r: string)
    ensures |r| == |StripCurrencyNoise(s)|
    ensures forall i :: 0 <= i < |r| ==> r[i] != 'R' && r[i] != '$' && !IsJsSpace(r[i])
    ensures forall i :: 0 <= i < |r| && r[i] == '.' ==>
      ',' in StripCurrencyNoise(s) && i == IndexOf(StripCurrencyNoise(s), ',')
    ensures ',' in StripCurrencyNoise(s) ==> r[IndexOf(StripCurrencyNoise(s), ',')] == '.'
    ensures forall i :: 0 <= i < |r| && r[i] != '.' ==> r[i] == StripCurrencyNoise(s)[i]
  {
    var t := StripCurrencyNoise(s);
    ReplaceFirstPointwise(t, ',', '.');
    ReplaceFirst(t, ',', '.')
  }

  /** Replacing the first `c` changes that one position and no other. */
  lemma ReplaceFirstPointwise(t: string, c: char, to: char)
    ensures var r := ReplaceFirst(t, c, to);
      forall i :: 0 <= i < |t| && !(c in t && i == IndexOf(t, c)) ==> r[i] == t[i]
    ensures c in t ==> ReplaceFirst(t, c, to)[IndexOf(t, c)] == to
  {
    var r := ReplaceFirst(t, c, to);
    if c in t {
      ReplaceFirstSplits(t, c, to);
      var k := IndexOf(t, c);
      forall i | 0 <= i < |r| && i != k
        ensures r[i] == t[i]
      {
        if i < k {
          assert r[i] == t[..k][i];
        } else {
          assert r[i] == t[k + 1..][i - k - 1];
        }
      }
    }
  }

  /** The number stored for a currency text: `parseFloat` of the cleaned text, 0 for NaN. */
  function CurrencyTextValue(s: string): (v: real)
    ensures ParseFloat(CleanCurrencyText(s)).None? ==> v == 0.0
    ensures ParseFloat(CleanCurrencyText(s)).Some? ==> v == ParseFloat(CleanCurrencyText(s)).value
  {
    ParseFloat(CleanCurrencyText(s)).GetOr(0.0)
  }

  /** The fields the page edits through a currency input. */
  predicate IsCurrencyField(f: AiField) {
    f == HourlyRate || f == IntegrationCost || f == SupportFee
  }

  /** `handleCurrencyChange`: the field takes the number the text denotes (0 when it
      denotes none), nothing else changes, and the page shows the new price. */
  function HandleCurrencyChange(st: AiPageState, f: AiField, text: string): (r: AiPageState)
    requires IsCurrencyField(f)
    ensures GetField(r.inputs, f) == Number(CurrencyTextValue(text))
    ensures forall g :: g != f ==> GetField(r.inputs, g) == GetField(st.inputs, g)
    ensures ShowsCurrentResult(r)
  {
    var num := CurrencyTextValue(text);
    HandleInputChange(st, f, Number(num))
  }

  // ---------------------------------------------------------------------------
  // Round trip through the pt-BR currency format

  /** Decimal digits with a `.` between each group of three, counted from the right. */
  function GroupThousands(d: string): (r: string)
    requires AllDigits(d)
    ensures forall i :: 0 <= i < |r| ==> IsDigit(r[i]) || r[i] == '.'
  {
    if |d| <= 3 then d
    else GroupThousands(d[..|d| - 3]) + "." + d[|d| - 3..]
  }

  /** Two decimal digits, with a leading zero below 10. */
  function TwoDigits(n: nat): (r: string)
    requires n < 100
    ensures |r| == 2 && AllDigits(r) && DigitsValue(r) == n
  {
    var r := [DigitChar(n / 10), DigitChar(n % 10)];
    assert r[..1] == [r[0]] && r[..1][..0] == [];
    r
  }

  /** A non-negative amount in cents as the pt-BR format writes it after a prefix
      such as `R$` and a space: thousands grouped with `.`, then `,` and two decimals. */
  function FormatBrl(prefix: string, cents: nat): string {
    prefix + GroupThousands(NatToDigits(cents / 100)) + "," + TwoDigits(cents % 100)
  }

  /** Stripping removes exactly the grouping points. */
  lemma {:induction false} StripGrouped(d: string)
    requires AllDigits(d)
    ensures StripCurrencyNoise(GroupThousands(d)) == d
  {
    if |d| <= 3 {
      StripDigits(d);
    } else {
      var hi := d[..|d| - 3];
      var lo := d[|d| - 3..];
      StripGrouped(hi);
      StripJoin(GroupThousands(hi), hi, lo);
      assert hi + lo == d;
    }
  }

  /** Digits are never stripped. */
  lemma StripDigits(d: string)
    requires AllDigits(d)
    ensures StripCurrencyNoise(d) == d
  {
    StripClean(d);
  }

  /** One grouping point and the three digits after it. */
  lemma StripJoin(grouped: string, hi: string, lo: string)
    requires StripCurrencyNoise(grouped) == hi && AllDigits(lo)
    ensures StripCurrencyNoise(grouped + "." + lo) == hi + lo
  {
    StripAppend(grouped + ".", lo);
    StripAppend(grouped, ".");
    StripDigits(lo);
  }

  /** Replacing the first `c` of `a + [c] + b` when `a` has none. */
  lemma ReplaceFirstAfter(a: string, c: char, to: char, b: string)
    requires c !in a
    ensures ReplaceFirst(a + [c] + b, c, to) == a + [to] + b
  {
    var s := a + [c] + b;
    assert s[|a|] == c;
    var k := IndexOf(s, c);
    assert s[..k] == a && s[k + 1..] == b;
    ReplaceFirstSplits(s, c, to);
  }

  /** The cleaning undoes the format: the text of an amount reads back as that amount. */
  lemma CurrencyRoundTrip(prefix: string, cents: nat)
    requires forall i :: 0 <= i < |prefix| ==> IsCurrencyNoise(prefix[i])
    ensures CurrencyTextValue(FormatBrl(prefix, cents)) == cents as real / 100.0
  {
    var whole := NatToDigits(cents / 100);
    var frac := TwoDigits(cents % 100);
    CleanFormatted(prefix, cents);
    CentsValue(cents, whole, frac);
    ReadsAs(CleanCurrencyText(FormatBrl(prefix, cents)), whole, frac, cents as real / 100.0);
  }

  /** Cleaning a formatted amount leaves its whole part's digits, a point and the
      two decimals. */
  lemma CleanFormatted(prefix: string, cents: nat)
    requires forall i :: 0 <= i < |prefix| ==> IsCurrencyNoise(prefix[i])
    ensures CleanCurrencyText(FormatBrl(prefix, cents))
         == NatToDigits(cents / 100) + ['.'] + TwoDigits(cents % 100)
  {
    var whole := NatToDigits(cents / 100);
    var frac := TwoDigits(cents % 100);
    StripGrouped(whole);
    StripFormatted(prefix, GroupThousands(whole), whole, frac);
    ReplaceFirstAfter(whole, ',', '.', frac);
  }

  /** The prefix goes, the grouped digits lose their points, the comma and the
      decimals stay. */
  lemma StripFormatted(prefix: string, grouped: string, whole: string, frac: string)
    requires forall i :: 0 <= i < |prefix| ==> IsCurrencyNoise(prefix[i])
    requires StripCurrencyNoise(grouped) == whole && AllDigits(frac)
    ensures StripCurrencyNoise(prefix + grouped + "," + frac) == whole + [','] + frac
  {
    StripAppend(prefix, grouped);
    StripNoise(prefix);
    assert StripCurrencyNoise(prefix + grouped) == whole;
    StripAppend(prefix + grouped, ",");
    StripClean(",");
    assert StripCurrencyNoise(prefix + grouped + ",") == whole + [','];
    StripAppend(prefix + grouped + ",", frac);
    StripDigits(frac);
  }

  /** A decimal literal whose parts are worth `v` reads as `v`. */
  lemma ReadsAs(s: string, whole: string, frac: string, v: real)
    requires |whole| > 0 && AllDigits(whole) && AllDigits(frac) && s == whole + ['.'] + frac
    requires DecimalValue(whole, frac) == v
    ensures ParseFloat(s) == Some(v)
  {
    ReadsDecimal(s, whole, frac);
  }

  /** Digits worth `cents / 100` and two digits worth `cents % 100` make `cents / 100` reais. */
  lemma CentsValue(cents: nat, whole: string, frac: string)
    requires AllDigits(whole) && AllDigits(frac) && |frac| == 2
    requires DigitsValue(whole) == cents / 100 && DigitsValue(frac) == cents % 100
    ensures DecimalValue(whole, frac) == cents as real / 100.0
  {
    TwoPlaces(whole, frac);
    CentsSplit(cents, DigitsValue(whole), DigitsValue(frac));
  }

  lemma TwoPlaces(whole: string, frac: string)
    requires AllDigits(whole) && AllDigits(frac) && |frac| == 2
    ensures DecimalValue(whole, frac) == DigitsValue(whole) as real + DigitsValue(frac) as real / 100.0
  {
    assert Pow10(2) == 100;
  }

  lemma CentsSplit(cents: nat, whole: nat, frac: nat)
    requires whole == cents / 100 && frac == cents % 100
    ensures whole as real + frac as real / 100.0 == cents as real / 100.0
  {
    assert cents == whole * 100 + frac;
  }

  // ---------------------------------------------------------------------------
  // The page's defaults, priced

  /** The defaults price at 60 hours and a R$ 12,500 base; markups bring the setup to
      R$ 16,250 before margin and R$ 22,750 after it. Each month costs R$ 150 of
      hosting, R$ 90 of tokens and R$ 2,000 of support, R$ 3,360 with the margin. */
  lemma DefaultsPrice()
    ensures var r := CalculateAiProject(DefaultInputs());
      && r.estimatedHours == 60 && r.baseSetupValue == 12500.0
      && r.finalSetupValue - r.breakdown.marginAddon == 16250.0 && r.finalSetupValue == 22750.0
      && r.infraCost == 150.0 && r.tokenCost == 90.0 && r.whatsappCost == 0.0
      && r.baseMonthlyCost == 2240.0 && r.finalMonthlyValue == 3360.0
  {
    var i := DefaultInputs();
    assert RawHours(i) == 60.0;
    assert Ceil(60.0) == 60;
    assert LaborCost(i) == 12000.0;
    assert BaseSetupValue(i) == 12500.0;
    assert TotalMarkupMultiplier(i) == 1.3;
    assert PreMarginSetup(i) == 16250.0;
    assert SetupMargin(i) == 6500.0;
    assert TokenCost(i) == 90.0;
    assert BaseMonthlyCost(i) == 2240.0;
    assert FinalMonthlyValue(i) == 3360.0;
  }
}
