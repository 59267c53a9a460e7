/** The display rules of the results dashboard (components/ResultsView.tsx).
    Colours, styles and icons are tags; layout is not modelled. */
module ResultsView {
  import opened Wrappers
  import opened Types

  // ---------------------------------------------------------------- risk badge

  datatype BadgeStyle = GreenBadge | YellowBadge | OrangeBadge | RedBadge

  /** The badge's style record, keyed by risk-level string. */
  const BadgeStyles: map<string, BadgeStyle> :=
    map["SAFE" := GreenBadge, "CAUTION" := YellowBadge, "SUSPICIOUS" := OrangeBadge, "CRITICAL" := RedBadge]

  datatype Badge = Badge(style: BadgeStyle, caption: string)

  /** `RiskBadge`: looks the level up in the style record and falls back to the
      CAUTION style for any level the record lacks; the caption is the level itself. */
  function RiskBadge(level: string): (b: Badge)
    ensures b.caption == level
  {
    Badge(if level in BadgeStyles then BadgeStyles[level] else BadgeStyles["CAUTION"], level)
  }

  /** Each declared risk level gets a style of its own, and every other string
      gets CAUTION's style. */
  lemma RiskBadgeStyles(level: string)
    ensures forall a: RiskLevel, b: RiskLevel ::
      RiskBadge(a.Name()).style == RiskBadge(b.Name()).style ==> a == b
    ensures (forall l: RiskLevel :: level != l.Name()) ==>
      RiskBadge(level).style == RiskBadge(Caution.Name()).style
    ensures RiskBadge(Safe.Name()).style == GreenBadge
    ensures RiskBadge(Caution.Name()).style == YellowBadge
    ensures RiskBadge(Suspicious.Name()).style == OrangeBadge
    ensures RiskBadge(Critical.Name()).style == RedBadge
  {
    if forall l: RiskLevel :: level != l.Name() {
      assert level != Safe.Name() && level != Caution.Name();
      assert level != Suspicious.Name() && level != Critical.Name();
      assert level !in BadgeStyles;
    }
  }

  // ---------------------------------------------------------------- risk chart

  datatype ChartColour = RedFill | AmberFill | GreenFill | GreyTrack

  /** How alarming a band colour is, for stating monotonicity. The grey track
      is not a band and has no rank. */
  function Alarm(c: ChartColour): nat
    requires c != GreyTrack
  {
    match c
    case GreenFill => 0
    case AmberFill => 1
    case RedFill => 2
  }

  /** The colour of the "Risk" slice: three bands split at 40 and 75. */
  function BandColour(score: int): (c: ChartColour)
    ensures c == RedFill <==> score > 75
    ensures c == AmberFill <==> 40 < score <= 75
    ensures c == GreenFill <==> score <= 40
  {
    if score > 75 then RedFill else if score > 40 then AmberFill else GreenFill
  }

  /** The bands never lower the alarm as the score rises. */
  lemma BandsMonotone(lo: int, hi: int)
    requires lo <= hi
    ensures Alarm(BandColour(lo)) <= Alarm(BandColour(hi))
  {
  }

  /** One slice of the half-doughnut chart, with its fill. */
  datatype Slice = Slice(name: string, value: int, fill: ChartColour)

  /** `riskData` zipped with `riskColors`: the score slice in its band colour,
      then the complement slice in the grey track colour. */
  function RiskChart(score: int): (slices: seq<Slice>)
    ensures |slices| == 2
    ensures slices[0].name == "Risk" && slices[1].name == "Safe"
    ensures slices[0].value == score
    ensures slices[0].value + slices[1].value == 100
    ensures slices[0].fill == BandColour(score) && slices[1].fill == GreyTrack
    ensures DocumentedScore(score) <==> slices[0].value >= 0 && slices[1].value >= 0
  {
    [Slice("Risk", score, BandColour(score)), Slice("Safe", 100 - score, GreyTrack)]
  }

  // --------------------------------------------------------------- shield icon

  datatype Shield = AlarmShield | CheckShield

  /** The heading icon: the alarm shield above 50, the check shield otherwise. */
  function ShieldIcon(score: int): (s: Shield)
    ensures s == AlarmShield <==> score > 50
  {
    if score > 50 then AlarmShield else CheckShield
  }

  /** The shield threshold is not one of the band boundaries: the amber band
      holds scores with either shield. */
  lemma ShieldSplitsAmberBand()
    ensures BandColour(45) == BandColour(60) == AmberFill
    ensures ShieldIcon(45) == CheckShield && ShieldIcon(60) == AlarmShield
  {
  }

  // -------------------------------------------------------------------- alerts

  datatype AlertStyle = BlueAlert | OrangeAlert | RedAlert
  datatype AlertIcon = CheckCircleIcon | TriangleIcon | XCircleIcon

  /** One rendered alert. */
  datatype AlertView = AlertView(style: AlertStyle, icon: AlertIcon, flag: string, description: string)

  /** `AlertItem`: style and icon chosen by severity, flag and description shown as given. */
  function AlertItem(alert: FraudAlert): (v: AlertView)
    ensures v.flag == alert.flag && v.description == alert.description
    ensures alert.severity == Low ==> v.style == BlueAlert && v.icon == CheckCircleIcon
    ensures alert.severity == Medium ==> v.style == OrangeAlert && v.icon == TriangleIcon
    ensures alert.severity == High ==> v.style == RedAlert && v.icon == XCircleIcon
  {
    match alert.severity
    case Low => AlertView(BlueAlert, CheckCircleIcon, alert.flag, alert.description)
    case Medium => AlertView(OrangeAlert, TriangleIcon, alert.flag, alert.description)
    case High => AlertView(RedAlert, XCircleIcon, alert.flag, alert.description)
  }

  /** The three severities are told apart by both style and icon. */
  lemma AlertSeveritiesDistinct(a: FraudAlert, b: FraudAlert)
    ensures AlertItem(a).style == AlertItem(b).style <==> a.severity == b.severity
    ensures AlertItem(a).icon == AlertItem(b).icon <==> a.severity == b.severity
  {
  }

  /** `alerts.map(AlertItem)`: one view per alert, in list order. */
  function AlertItems(alerts: seq<FraudAlert>): (views: seq<AlertView>)
    ensures |views| == |alerts|
    ensures forall i :: 0 <= i < |alerts| ==> views[i] == AlertItem(alerts[i])
  {
    if alerts == [] then [] else [AlertItem(alerts[0])] + AlertItems(alerts[1..])
  }

  const NoAlertsText: string := "No active fraud alerts detected."

  datatype AlertPanel = NoAlerts(text: string) | AlertList(items: seq<AlertView>)

  /** The alert area: the fixed message for an empty list, the items otherwise. */
  function AlertPanelFor(alerts: seq<FraudAlert>): (p: AlertPanel)
    ensures p.NoAlerts? <==> |alerts| == 0
    ensures p.NoAlerts? ==> p.text == NoAlertsText
    ensures p.AlertList? ==> |p.items| == |alerts|
    ensures p.AlertList? ==> forall i :: 0 <= i < |alerts| ==> p.items[i] == AlertItem(alerts[i])
  {
    if |alerts| > 0 then AlertList(AlertItems(alerts)) else NoAlerts(NoAlertsText)
  }

  // --------------------------------------------------------------- detail rows

  /** A `DetailRow` value: `string | boolean | undefined`. */
  datatype DetailValue = Text(s: string) | Flag(b: bool) | Undefined

  /** The em-dash shown for an empty or missing value. */
  const Placeholder: string := "\U{2014}"

  /** The text a `DetailRow` shows: Yes/No for a boolean, the string itself when
      it is non-empty, the placeholder otherwise. It is never blank. */
  function DetailText(v: DetailValue): (shown: string)
    ensures shown != ""
    ensures v.Flag? ==> (shown == "Yes" <==> v.b) && (shown == "No" <==> !v.b)
    ensures v.Text? && v.s != "" ==> shown == v.s
    ensures v.Undefined? || v == Text("") ==> shown == Placeholder
  {
    match v
    case Flag(b) => if b then "Yes" else "No"
    case Text(s) => if s != "" then s else Placeholder
    case Undefined => Placeholder
  }

  /** The value handed to the numeric-amount row: a dollar sign and the amount. */
  function AmountValue(amountNumeric: string): DetailValue {
    Text("$" + amountNumeric)
  }

  /** The numeric amount is always "$" followed by the amount and never the
      placeholder, even when the amount is empty. */
  lemma AmountNeverPlaceholder(amountNumeric: string)
    ensures DetailText(AmountValue(amountNumeric)) == "$" + amountNumeric
    ensures DetailText(AmountValue(amountNumeric)) != Placeholder
    ensures DetailText(AmountValue("")) == "$"
  {
    assert ("$" + amountNumeric)[0] == '$';
  }

  datatype Row = Row(caption: string, shown: string)

  /** The "Transaction Details" group: each row's caption and the field it
      shows through `DetailRow` formatting. None is blank, and the first is the
      dollar amount. */
  function TransactionRows(e: CheckExtraction): (rows: seq<Row>)
    ensures |rows| == 5
    ensures rows[0] == Row("Amount (Numeric)", "$" + e.amountNumeric)
    ensures rows[1] == Row("Amount (Text)", DetailText(Text(e.amountText)))
    ensures rows[2] == Row("Date", DetailText(Text(e.date)))
    ensures rows[3] == Row("Check Number", DetailText(Text(e.checkNumber)))
    ensures rows[4] == Row("Memo", DetailText(Text(e.memo)))
    ensures forall i :: 0 <= i < |rows| ==> rows[i].shown != ""
  {
    AmountNeverPlaceholder(e.amountNumeric);
    [ Row("Amount (Numeric)", DetailText(AmountValue(e.amountNumeric))),
      Row("Amount (Text)", DetailText(Text(e.amountText))),
      Row("Date", DetailText(Text(e.date))),
      Row("Check Number", DetailText(Text(e.checkNumber))),
      Row("Memo", DetailText(Text(e.memo))) ]
  }

  /** The "Parties Involved" group: each row's caption and the field it shows
      through `DetailRow` formatting. None is blank. The payer's address is not
      among them. */
  function PartyRows(e: CheckExtraction): (rows: seq<Row>)
    ensures |rows| == 5
    ensures rows[0] == Row("Payee", DetailText(Text(e.payeeName)))
    ensures rows[1] == Row("Payer", DetailText(Text(e.payerName)))
    ensures rows[2] == Row("Bank Name", DetailText(Text(e.bankName)))
    ensures rows[3] == Row("Routing Number", DetailText(Text(e.routingNumber)))
    ensures rows[4] == Row("Account Number", DetailText(Text(e.accountNumber)))
    ensures forall i :: 0 <= i < |rows| ==> rows[i].shown != ""
  {
    [ Row("Payee", DetailText(Text(e.payeeName))),
      Row("Payer", DetailText(Text(e.payerName))),
      Row("Bank Name", DetailText(Text(e.bankName))),
      Row("Routing Number", DetailText(Text(e.routingNumber))),
      Row("Account Number", DetailText(Text(e.accountNumber))) ]
  }

  // ------------------------------------------------------- signature and MICR

  datatype Dot = GreenDot | RedDot
  datatype Signature = Signature(dot: Dot, answer: string)

  /** The signature indicator: green and "Yes" exactly when the check is signed. */
  function SignatureIndicator(isSigned: bool): (s: Signature)
    ensures s.dot == GreenDot <==> isSigned
    ensures s.answer == "Yes" <==> isSigned
    ensures s.answer == "No" <==> !isSigned
  {
    if isSigned then Signature(GreenDot, "Yes") else Signature(RedDot, "No")
  }

  /** The MICR box: shown, with the line verbatim, only for a non-empty line. */
  function MicrBox(micrLine: Option<string>): (shown: Option<string>)
    ensures shown.Some? <==> micrLine.Some? && micrLine.value != ""
    ensures shown.Some? ==> shown == micrLine
  {
    if micrLine.Some? && micrLine.value != "" then micrLine else None
  }

  // ------------------------------------------------------------ whole panel

  /** Everything the dashboard shows for one result. */
  datatype Dashboard = Dashboard(
    shield: Shield,
    badge: Badge,
    score: int,
    chart: seq<Slice>,
    reasoning: string,
    alerts: AlertPanel,
    transaction: seq<Row>,
    parties: seq<Row>,
    signature: Signature,
    micr: Option<string>)

  /** `ResultsView` for one result. */
  function Render(result: AnalysisResult): Dashboard {
    var fa := result.fraudAnalysis;
    var e := result.extraction;
    Dashboard(
      ShieldIcon(fa.riskScore),
      RiskBadge(fa.riskLevel.Name()),
      fa.riskScore,
      RiskChart(fa.riskScore),
      fa.reasoning,
      AlertPanelFor(fa.alerts),
      TransactionRows(e),
      PartyRows(e),
      SignatureIndicator(e.isSigned),
      MicrBox(e.micrLine))
  }

  /** What the dashboard promises about a result: the score's own chart (the
      score in its band colour and its complement), the level's own badge, the reasoning verbatim, one styled
      alert view per alert in order, all ten extracted fields in the detail
      rows with none blank, the signature indicator and the MICR box. */
  lemma RenderShowsResult(result: AnalysisResult)
    ensures var d := Render(result); var fa := result.fraudAnalysis;
      && d.score == fa.riskScore
      && d.chart == RiskChart(fa.riskScore)
      && d.badge.caption == fa.riskLevel.Name()
      && d.badge.style == BadgeStyles[fa.riskLevel.Name()]
      && (d.shield == AlarmShield <==> fa.riskScore > 50)
      && d.reasoning == fa.reasoning
      && d.alerts == AlertPanelFor(fa.alerts)
      && d.transaction == TransactionRows(result.extraction)
      && d.parties == PartyRows(result.extraction)
      && d.signature == SignatureIndicator(result.extraction.isSigned)
      && d.micr == MicrBox(result.extraction.micrLine)
  {
  }
}
