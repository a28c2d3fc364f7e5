/** The state of the guided loan conversation of lib/loan-flow/types.ts: the
    twenty conversation steps, the data collected on the way, the four
    document slots, and the actions the reducer understands. Numbers are
    exact reals; browser objects (`File`) are reduced to what the code reads
    of them. */
module LoanFlowTypes {
  import opened Wrappers

  /** `ConversationStep`, in declaration order. */
  datatype ConversationStep =
    | Welcome | Employment | MonthlyIncome | LoanAmount | TenureChoice
    | FullName | Mobile | OtpVerification | Email | Pan | Aadhaar
    | KycConsent | CreditCheck | Offer | DocumentUploadPrompt | DocumentUpload
    | AwaitingUploadConfirmation | ApprovalProcessing | ApprovalSuccess | Complete

  /** Every step, in declaration order. */
  const AllSteps: seq<ConversationStep> :=
    [Welcome, Employment, MonthlyIncome, LoanAmount, TenureChoice,
     FullName, Mobile, OtpVerification, Email, Pan, Aadhaar,
     KycConsent, CreditCheck, Offer, DocumentUploadPrompt, DocumentUpload,
     AwaitingUploadConfirmation, ApprovalProcessing, ApprovalSuccess, Complete]

  /** The position of a step in declaration order. */
  function Position(s: ConversationStep): (i: nat)
    ensures i < |AllSteps| && AllSteps[i] == s
  {
    match s
    case Welcome => 0
    case Employment => 1
    case MonthlyIncome => 2
    case LoanAmount => 3
    case TenureChoice => 4
    case FullName => 5
    case Mobile => 6
    case OtpVerification => 7
    case Email => 8
    case Pan => 9
    case Aadhaar => 10
    case KycConsent => 11
    case CreditCheck => 12
    case Offer => 13
    case DocumentUploadPrompt => 14
    case DocumentUpload => 15
    case AwaitingUploadConfirmation => 16
    case ApprovalProcessing => 17
    case ApprovalSuccess => 18
    case Complete => 19
  }

  /** There are exactly twenty steps, and the list holds each once. */
  lemma {:induction false} TwentySteps()
    ensures |AllSteps| == 20
    ensures forall s :: s in AllSteps
    ensures forall i, j :: 0 <= i < j < |AllSteps| ==> AllSteps[i] != AllSteps[j]
  {
    forall s ensures s in AllSteps {
      var i := Position(s);
    }
    forall m | 0 <= m < |AllSteps| ensures Position(AllSteps[m]) == m { }
  }

  datatype EmploymentType = Salaried | SelfEmployed

  /** `Tenure`: one of the four offered terms, in months. */
  type Tenure = n: int | n == 12 || n == 24 || n == 36 || n == 48 witness 12

  datatype DocumentUploadStatus = Pending | Uploading | Uploaded | UploadError
  datatype ApprovalStatus = ApprovalPending | Approved | Rejected
  datatype CreditStatus = CreditPending | Evaluating | CreditApproved | CreditRejected

  /** The keys of `PersonalDetails`. */
  datatype PersonalField = FullNameField | MobileField | EmailField | PanField | AadhaarField

  datatype PersonalDetails = PersonalDetails(fullName: Option<string>, mobile: Option<string>,
                                             email: Option<string>, pan: Option<string>,
                                             aadhaar: Option<string>)
  {
    function Get(f: PersonalField): Option<string> {
      match f
      case FullNameField => fullName
      case MobileField => mobile
      case EmailField => email
      case PanField => pan
      case AadhaarField => aadhaar
    }

    /** `{...details, [f]: value}`. */
    function Set(f: PersonalField, value: string): (r: PersonalDetails)
      ensures r.Get(f) == Some(value)
      ensures forall g :: g != f ==> r.Get(g) == Get(g)
    {
      match f
      case FullNameField => this.(fullName := Some(value))
      case MobileField => this.(mobile := Some(value))
      case EmailField => this.(email := Some(value))
      case PanField => this.(pan := Some(value))
      case AadhaarField => this.(aadhaar := Some(value))
    }
  }

  /** What the code reads of a browser `File`. */
  datatype FileInfo = FileInfo(name: string, size: real, mimeType: string)

  datatype DocumentFile = DocumentFile(file: Option<FileInfo>, status: DocumentUploadStatus, progress: real,
                                       url: Option<string>, uploadedAt: Option<string>,
                                       base64: Option<string>, fileName: Option<string>,
                                       fileSize: Option<real>)

  /** The keys of `DocumentsState`. */
  datatype DocumentKind = SalarySlip | BankStatement | AddressProof | Selfie

  datatype DocumentsState = DocumentsState(salarySlip: DocumentFile, bankStatement: DocumentFile,
                                           addressProof: DocumentFile, selfie: DocumentFile)
  {
    function Get(k: DocumentKind): DocumentFile {
      match k
      case SalarySlip => salarySlip
      case BankStatement => bankStatement
      case AddressProof => addressProof
      case Selfie => selfie
    }

    /** `{...documents, [k]: d}`. */
    function Set(k: DocumentKind, d: DocumentFile): (r: DocumentsState)
      ensures r.Get(k) == d
      ensures forall j :: j != k ==> r.Get(j) == Get(j)
    {
      match k
      case SalarySlip => this.(salarySlip := d)
      case BankStatement => this.(bankStatement := d)
      case AddressProof => this.(addressProof := d)
      case Selfie => this.(selfie := d)
    }

    /** `Object.values(documents)`, in declaration order. */
    function Values(): seq<DocumentFile> {
      [salarySlip, bankStatement, addressProof, selfie]
    }
  }

  datatype CreditEvaluation = CreditEvaluation(status: CreditStatus, score: Option<real>, evaluatedAt: Option<string>)

  /** `LoanOffer`; `apr` is `None` where the computation yields NaN. */
  datatype LoanOffer = LoanOffer(amount: real, interestRate: real, emi: real, tenure: real,
                                 processingFee: real, apr: Option<real>, totalInterest: real,
                                 totalPayable: real)

  /** A local date and time: a day number and the time within the day. */
  datatype LocalTime = LocalTime(day: int, msOfDay: nat)

  datatype SanctionLetter = SanctionLetter(referenceNumber: string, referenceNo: Option<string>,
                                           generatedAt: LocalTime, date: Option<string>,
                                           validUntil: LocalTime, documentHash: string,
                                           applicantName: string, loanDetails: LoanOffer)

  datatype MessageType = Bot | User
  datatype InputType = TextInput | NumberInput | OtpInput | ButtonsInput

  datatype MessageMetadata = MessageMetadata(step: Option<ConversationStep>, options: Option<seq<string>>,
                                             requiresInput: Option<bool>, inputType: Option<InputType>)

  datatype Message = Message(id: string, messageType: MessageType, content: string, timestamp: string,
                             metadata: Option<MessageMetadata>)

  datatype CollectedData = CollectedData(employmentType: Option<EmploymentType>, monthlyIncome: Option<real>,
                                         loanAmount: Option<real>, tenure: Option<Tenure>,
                                         personalDetails: PersonalDetails, kycConsent: Option<bool>,
                                         otpVerified: Option<bool>)

  datatype LoanFlowState = LoanFlowState(
    currentStep: ConversationStep, stepHistory: seq<ConversationStep>,
    collectedData: CollectedData, creditEvaluation: Option<CreditEvaluation>,
    loanOffer: Option<LoanOffer>, offerAccepted: Option<bool>,
    documents: DocumentsState, documentsComplete: bool, uploadConfirmationReceived: bool,
    approvalStatus: Option<ApprovalStatus>, sanctionLetter: Option<SanctionLetter>,
    messages: seq<Message>, isProcessing: bool, error: Option<string>)

  /** `LoanFlowAction`. */
  datatype LoanFlowAction =
    | SetStep(step: ConversationStep)
    | GoBack
    | AddMessage(message: Message)
    | SetEmploymentType(employmentType: EmploymentType)
    | SetMonthlyIncome(income: real)
    | SetLoanAmount(amount: real)
    | SetTenure(tenure: Tenure)
    | SetPersonalDetail(field: PersonalField, value: string)
    | SetOtpVerified(verified: bool)
    | SetKycConsent(consent: bool)
    | StartCreditEvaluation
    | SetCreditEvaluation(evaluation: CreditEvaluation)
    | SetLoanOffer(offer: LoanOffer)
    | SetOfferAccepted(accepted: bool)
    | UploadDocument(kind: DocumentKind, file: DocumentFile)
    | UpdateDocumentProgress(kind: DocumentKind, progress: real)
    | SetDocumentStatus(kind: DocumentKind, status: DocumentUploadStatus)
    | SetDocumentsComplete(complete: bool)
    | SetUploadConfirmation(confirmed: bool)
    | StartApprovalProcessing
    | SetApprovalStatus(approval: ApprovalStatus)
    | GenerateSanctionLetter(letter: SanctionLetter)
    | SetProcessing(processing: bool)
    | SetError(errorMessage: Option<string>)
    | ResetFlow
    | LoadState(state: LoanFlowState)
    | ClearMessages

  /** `initialDocumentState`. */
  const InitialDocument: DocumentFile := DocumentFile(None, Pending, 0.0, None, None, None, None, None)

  const NoPersonalDetails: PersonalDetails := PersonalDetails(None, None, None, None, None)

  /** `initialLoanFlowState`. */
  function InitialLoanFlowState(): (s: LoanFlowState)
    ensures s.currentStep == Welcome && s.stepHistory == [] && s.messages == []
    ensures forall k :: s.documents.Get(k).status == Pending && s.documents.Get(k).progress == 0.0
    ensures !s.documentsComplete && !s.uploadConfirmationReceived && !s.isProcessing
  {
    LoanFlowState(Welcome, [],
                  CollectedData(None, None, None, None, NoPersonalDetails, None, None),
                  None, None, None,
                  DocumentsState(InitialDocument, InitialDocument, InitialDocument, InitialDocument),
                  false, false, None, None, [], false, None)
  }
}
