/**
 What the form promises, proved about the rule table and the outcome it
 defines: the halting points, the high-value gate, the base documents, each
 category's rule, and how attached files move the submit button.
 */
module Properties {
  import opened Choices
  import opened Requirements

  /** The sentinel project halts the form, and nothing else halts it at that point. */
  lemma SentinelHalts(a: Answers, attached: set<Slot>)
    ensures Evaluate(a, attached) == Stopped(ProjectNotChosen) <==> a.project == Sentinel
    ensures a.project == Sentinel ==> !SubmitEnabled(Evaluate(a, attached))
  {
  }

  /** Every project of the method's catalog opens the steps after the first. */
  lemma CatalogProjectPassesStepOne(a: Answers, attached: set<Slot>, k: int)
    requires 1 <= k < |ProjectOptions(a.payment)| && a.project == ProjectOptions(a.payment)[k]
    ensures Evaluate(a, attached) != Stopped(ProjectNotChosen)
  {
  }

  /**
   Once a project is chosen, the form stops at the gate exactly when the
   purchase is high-value and the audit proof is missing, whatever the other
   answers and files are.
   */
  lemma GateDominance(a: Answers, attached: set<Slot>)
    requires a.project != Sentinel
    ensures Evaluate(a, attached) == Stopped(HighValueProofMissing)
            <==> a.highValue && AuditProof !in attached
  {
  }

  /** A verdict is only ever computed with the gate passed. */
  lemma ReachedMeansGatePassed(a: Answers, attached: set<Slot>)
    requires Evaluate(a, attached).Reached?
    ensures a.project != Sentinel
    ensures Evaluate(a, attached).verdict.highPriceChecked
    ensures a.highValue ==> AuditProof in attached
  {
  }

  /**
   Base documents: a card method needs the statement, the tax invoice method
   needs the tax invoice and the statement.
   */
  lemma BasicFilesRule(a: Answers, attached: set<Slot>)
    requires Evaluate(a, attached).Reached?
    ensures Evaluate(a, attached).verdict.basicFilesOk
            <==> if a.payment == TaxInvoice then TaxInvoiceFile in attached && Statement in attached
                 else Statement in attached
  {
  }

  /**
   The submit button is enabled exactly when a project is chosen, every
   required slot (gate, base documents, category) holds a file and the
   category's own conditions hold.
   */
  lemma SubmitEnabledIff(a: Answers, attached: set<Slot>)
    ensures SubmitEnabled(Evaluate(a, attached))
            <==> a.project != Sentinel && RequiredSlots(a) <= attached
                 && CategoryRequirement(a).admissible
                 && (CategoryRequirement(a).needsReason ==> |a.reason| > 0)
  {
  }

  /** Attaching more files never stops the form earlier and never clears a flag. */
  lemma MoreFilesNeverHurt(a: Answers, attached: set<Slot>, more: set<Slot>)
    requires attached <= more
    requires Evaluate(a, attached).Reached?
    ensures Evaluate(a, more).Reached?
    ensures Evaluate(a, attached).verdict.basicFilesOk ==> Evaluate(a, more).verdict.basicFilesOk
    ensures Evaluate(a, attached).verdict.extraRequirementsMet ==> Evaluate(a, more).verdict.extraRequirementsMet
    ensures SubmitEnabled(Evaluate(a, attached)) ==> SubmitEnabled(Evaluate(a, more))
  {
  }

  /** Files in slots the form does not ask for have no influence on the outcome. */
  lemma OnlyRequiredSlotsMatter(a: Answers, attached: set<Slot>)
    ensures Evaluate(a, attached) == Evaluate(a, attached * RequiredSlots(a))
  {
  }

  /** Materials need nothing beyond the base documents. */
  lemma MaterialsRule(a: Answers, attached: set<Slot>)
    requires a.category == Materials && Evaluate(a, attached).Reached?
    ensures Evaluate(a, attached).verdict.extraRequirementsMet
  {
  }

  /**
   Lab environment: a written reason under the tax invoice method; the order
   capture and a written reason under a card method.
   */
  lemma LabEnvironmentRule(a: Answers, attached: set<Slot>)
    requires a.category == LabEnvironment && Evaluate(a, attached).Reached?
    ensures Evaluate(a, attached).verdict.extraRequirementsMet
            <==> if a.payment == TaxInvoice then |a.reason| > 0
                 else OrderCapture in attached && |a.reason| > 0
  {
  }

  /**
   Office equipment: under the tax invoice method no order-capture uploader is
   shown, because the online question is never asked; the rule needs a written
   reason and, for an online order, the order capture.
   */
  lemma OfficeEquipmentRule(a: Answers, attached: set<Slot>)
    requires a.category == OfficeEquipment && Evaluate(a, attached).Reached?
    ensures a.payment == TaxInvoice ==> OrderCapture !in RequiredSlots(a)
    ensures Evaluate(a, attached).verdict.extraRequirementsMet
            <==> |a.reason| > 0 && (!IsOnline(a) || OrderCapture in attached)
  {
  }

  /** Conference fees need all three conference documents. */
  lemma ConferenceFeeRule(a: Answers, attached: set<Slot>)
    requires a.category == ConferenceFee && Evaluate(a, attached).Reached?
    ensures Evaluate(a, attached).verdict.extraRequirementsMet
            <==> ConfReg in attached && ConfInfo in attached && ConfFee in attached
  {
  }

  /** Printing needs the file of the chosen print type, and only that one. */
  lemma PrintingCostRule(a: Answers, attached: set<Slot>)
    requires a.category == PrintingCost && Evaluate(a, attached).Reached?
    ensures Evaluate(a, attached).verdict.extraRequirementsMet
            <==> if a.printType == Poster then PosterFile in attached else BookCover in attached
  {
  }

  /** Publication fees need the paper cover or the figure file, by cost type. */
  lemma PublicationFeeRule(a: Answers, attached: set<Slot>)
    requires a.category == PublicationFee && Evaluate(a, attached).Reached?
    ensures Evaluate(a, attached).verdict.extraRequirementsMet
            <==> if a.paperType == PublicationCharge then PaperCover in attached else FigureFile in attached
  {
  }

  /**
   Lab operations: without the under-100,000-won confirmation the submission
   can never be sent, whatever files are attached; with it, the order capture
   or the itemised receipt is needed, by purchase route.
   */
  lemma LabOperationsRule(a: Answers, attached: set<Slot>)
    requires a.category == LabOperations
    ensures !a.under100k ==> !SubmitEnabled(Evaluate(a, attached))
    ensures Evaluate(a, attached).Reached? ==>
              (Evaluate(a, attached).verdict.extraRequirementsMet
               <==> a.under100k && if a.route == InternetOrder then OrderCapture in attached
                                   else DetailReceipt in attached)
  {
  }
}
