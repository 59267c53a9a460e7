/** The data model of the application: the workflow phase enum and the
    records the analysis service returns (types.ts). */
module Types {
  import opened Wrappers

  /** The five workflow phases (types.ts:1-7). */
  datatype AnalysisStatus = Idle | Uploading | Analyzing | Complete | Error {
    /** The string value each enum member carries. */
    function Name(): string {
      match this
      case Idle => "IDLE"
      case Uploading => "UPLOADING"
      case Analyzing => "ANALYZING"
      case Complete => "COMPLETE"
      case Error => "ERROR"
    }
  }

  const AllStatuses: seq<AnalysisStatus> := [Idle, Uploading, Analyzing, Complete, Error]

  /** `AnalysisStatus` has exactly five members, pairwise distinct, with pairwise
      distinct string values. */
  lemma StatusesAreFive()
    ensures |AllStatuses| == 5
    ensures forall s: AnalysisStatus :: s in AllStatuses
    ensures forall i, j :: 0 <= i < j < |AllStatuses| ==> AllStatuses[i] != AllStatuses[j]
    ensures forall s: AnalysisStatus, t: AnalysisStatus :: s.Name() == t.Name() ==> s == t
  {
    forall s: AnalysisStatus ensures s in AllStatuses {
      match s
      case Idle => assert s == AllStatuses[0];
      case Uploading => assert s == AllStatuses[1];
      case Analyzing => assert s == AllStatuses[2];
      case Complete => assert s == AllStatuses[3];
      case Error => assert s == AllStatuses[4];
    }
  }

  /** `FraudAlert.severity` (types.ts:26). */
  datatype Severity = Low | Medium | High {
    function Name(): string {
      match this
      case Low => "LOW"
      case Medium => "MEDIUM"
      case High => "HIGH"
    }
  }

  /** `FraudAnalysis.riskLevel` (types.ts:33). */
  datatype RiskLevel = Safe | Caution | Suspicious | Critical {
    function Name(): string {
      match this
      case Safe => "SAFE"
      case Caution => "CAUTION"
      case Suspicious => "SUSPICIOUS"
      case Critical => "CRITICAL"
    }
  }

  /** The two closed string unions have three and four distinct members. */
  lemma LabelsAreDistinct()
    ensures forall a: Severity, b: Severity :: a.Name() == b.Name() ==> a == b
    ensures forall a: RiskLevel, b: RiskLevel :: a.Name() == b.Name() ==> a == b
    ensures |{Low.Name(), Medium.Name(), High.Name()}| == 3
    ensures |{Safe.Name(), Caution.Name(), Suspicious.Name(), Critical.Name()}| == 4
  {
  }

  /** The fields transcribed from the check (types.ts:9-23). Only the payer's
      address and the MICR line are optional. */
  datatype CheckExtraction = CheckExtraction(
    bankName: string,
    payerName: string,
    payerAddress: Option<string>,
    payeeName: string,
    date: string,
    amountNumeric: string,
    amountText: string,
    checkNumber: string,
    routingNumber: string,
    accountNumber: string,
    memo: string,
    isSigned: bool,
    micrLine: Option<string>)

  /** One fraud signal (types.ts:25-29). */
  datatype FraudAlert = FraudAlert(severity: Severity, flag: string, description: string)

  /** The risk assessment (types.ts:31-37). `riskScore` is a JavaScript number
      that is only documented, never checked, to lie in 0-100. */
  datatype FraudAnalysis = FraudAnalysis(
    riskScore: int,
    riskLevel: RiskLevel,
    alerts: seq<FraudAlert>,
    reasoning: string,
    digitalAlterationDetected: bool)

  /** The documented range of `riskScore` (types.ts:32). */
  predicate DocumentedScore(score: int) {
    0 <= score <= 100
  }

  /** The service's reply: an extraction paired with an analysis (types.ts:39-42). */
  datatype AnalysisResult = AnalysisResult(extraction: CheckExtraction, fraudAnalysis: FraudAnalysis)

  /** The browser's `File` handle; the application reads only its `type`. */
  datatype File = File(name: string, mimeType: string)

  /** The file held by the workflow (types.ts:44-49). `previewUrl` is an opaque
      object-URL token. `base64` is declared a string, but it holds whatever
      `split(',')[1]` produced, which is `undefined` (here `None`) for a data URL
      without a comma. */
  datatype UploadedFile = UploadedFile(file: File, previewUrl: string, base64: Option<string>, mimeType: string)
}
