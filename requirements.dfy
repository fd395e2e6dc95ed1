/**
 The document-requirement rules of the expense-evidence form, stated as a
 table: which upload slots each answer combination requires, which further
 conditions (a written reason, the under-100,000-won confirmation) apply, and
 the outcome the form reaches for a given set of attached files.
 */
module Requirements {
  import opened Choices

  /** The upload slots, named by the keys of the form's file dictionary. */
  datatype Slot =
    | AuditProof      // audit_proof: pre-purchase inspection capture (high-value purchases)
    | TaxInvoiceFile  // tax_invoice
    | Statement       // statement: the transaction statement
    | OrderCapture    // order_capture: screenshot of the online order
    | ConfReg         // conf_reg: conference registration certificate
    | ConfInfo        // conf_info: date and venue capture
    | ConfFee         // conf_fee: registration fee schedule
    | PosterFile      // poster_file
    | BookCover       // book_cover
    | PaperCover      // paper_cover
    | FigureFile      // figure_file
    | DetailReceipt   // detail_receipt: itemised receipt

  /** The print-type radio of the printing category. */
  datatype PrintType = Poster | BoundBook

  /** The cost-type radio of the publication category. */
  datatype PaperType = PublicationCharge | Illustration

  /** The purchase-route radio of the lab-operations category. */
  datatype BuyRoute = InternetOrder | OfflineStore

  /**
   Every answer the form collects apart from the files. Each widget always
   holds a value (checkboxes and radios have defaults, text inputs start
   empty), so no answer is ever missing.
   */
  datatype Answers = Answers(
    payment: PaymentMethod,
    project: string,
    highValue: bool,    // total of 1,000,000 won or more
    category: Category,
    online: bool,       // "ordered online?" checkbox of office equipment
    printType: PrintType,
    paperType: PaperType,
    under100k: bool,    // "under 100,000 won?" checkbox of lab operations
    route: BuyRoute,
    reason: string)

  /** Why the form stopped before reaching its verdict. */
  datatype Step = ProjectNotChosen | HighValueProofMissing

  /** The three flags whose conjunction enables the submit button. */
  datatype Verdict = Verdict(highPriceChecked: bool, basicFilesOk: bool, extraRequirementsMet: bool)
  {
    predicate AllClear()
    {
      highPriceChecked && basicFilesOk && extraRequirementsMet
    }
  }

  /** Either the form stopped at one of its two halting points, or it computed a verdict. */
  datatype Outcome = Stopped(step: Step) | Reached(verdict: Verdict)

  /** Whether the submit button is enabled. */
  predicate SubmitEnabled(o: Outcome)
  {
    o.Reached? && o.verdict.AllClear()
  }

  /** The audit proof is required exactly for high-value purchases. */
  function GateSlots(highValue: bool): set<Slot>
  {
    if highValue then {AuditProof} else {}
  }

  /** Base documents: the statement, plus the tax invoice for a non-card method. */
  function BaseSlots(pm: PaymentMethod): (r: set<Slot>)
    ensures Statement in r
    ensures TaxInvoiceFile in r <==> pm == TaxInvoice
    ensures r <= {TaxInvoiceFile, Statement}
  {
    if IsCard(pm) then {Statement} else {TaxInvoiceFile, Statement}
  }

  /**
   What a category asks for: the slots to upload, whether a non-empty reason
   is needed, and whether the purchase is admissible in that category at all.
   */
  datatype Requirement = Requirement(slots: set<Slot>, needsReason: bool, admissible: bool)

  /** Office equipment asks about an online order only for a card method. */
  predicate IsOnline(a: Answers)
  {
    a.payment != TaxInvoice && a.online
  }

  /**
   The category rule table. Only lab operations can be inadmissible (without
   the under-100,000-won confirmation); only lab environment and office
   equipment ask for a reason; a category never asks for the gate or base
   documents; and for an offered category, no order capture is asked of the
   tax invoice method.
   */
  function CategoryRequirement(a: Answers): (r: Requirement)
    ensures !r.admissible <==> a.category == LabOperations && !a.under100k
    ensures r.needsReason <==> a.category == LabEnvironment || a.category == OfficeEquipment
    ensures r.slots !! {AuditProof, TaxInvoiceFile, Statement}
    ensures a.category in CategoriesFor(a.payment) && a.payment == TaxInvoice ==> OrderCapture !in r.slots
  {
    match a.category
    case Materials => Requirement({}, false, true)
    case LabEnvironment =>
      Requirement(if a.payment == TaxInvoice then {} else {OrderCapture}, true, true)
    case OfficeEquipment =>
      Requirement(if IsOnline(a) then {OrderCapture} else {}, true, true)
    case ConferenceFee => Requirement({ConfReg, ConfInfo, ConfFee}, false, true)
    case PrintingCost =>
      Requirement({if a.printType == Poster then PosterFile else BookCover}, false, true)
    case PublicationFee =>
      Requirement({if a.paperType == PublicationCharge then PaperCover else FigureFile}, false, true)
    case LabOperations =>
      if !a.under100k then Requirement({}, false, false)
      else Requirement({if a.route == InternetOrder then OrderCapture else DetailReceipt}, false, true)
  }

  /** A category's requirement is met by the attached files and the reason text. */
  predicate CategorySatisfied(req: Requirement, attached: set<Slot>, reason: string)
  {
    req.admissible && req.slots <= attached && (req.needsReason ==> |reason| > 0)
  }

  /** Every slot the form asks for once it reaches its verdict. */
  function RequiredSlots(a: Answers): set<Slot>
  {
    GateSlots(a.highValue) + BaseSlots(a.payment) + CategoryRequirement(a).slots
  }

  /** The outcome of the form for the given answers and attached files. */
  function Evaluate(a: Answers, attached: set<Slot>): (r: Outcome)
    ensures r.Stopped? <==> a.project == Sentinel || (a.highValue && AuditProof !in attached)
    ensures r.Reached? ==> r.verdict.highPriceChecked
  {
    if a.project == Sentinel then Stopped(ProjectNotChosen)
    else if !(GateSlots(a.highValue) <= attached) then Stopped(HighValueProofMissing)
    else Reached(Verdict(
      true,
      BaseSlots(a.payment) <= attached,
      CategorySatisfied(CategoryRequirement(a), attached, a.reason)))
  }
}
